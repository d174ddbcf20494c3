/** Keys of the key-value tables: a list of strings and 32-bit numbers, as tagged bytes that sort by clock. */
module KeyCodec {
  import opened Base
  import opened Lib0

  const Y_ENCODING_STRING: Byte := 0
  const Y_ENCODING_UINT32: Byte := 1

  datatype Part = Text(utf8: Bytes) | Number(n: nat)
  type Key = seq<Part>

  function PartBytes(part: Part): Bytes {
    match part
    case Text(utf8) => [Y_ENCODING_STRING] + VarBytes(utf8)
    case Number(n) => [Y_ENCODING_UINT32] + Uint32(n)
  }

  function KeyBytes(key: Key): Bytes {
    if key == [] then [] else PartBytes(key[0]) + KeyBytes(key[1..])
  }

  lemma {:induction false} KeyBytesAppend(a: Key, b: Key)
    ensures KeyBytes(a + b) == KeyBytes(a) + KeyBytes(b)
  {
    if a == [] {
      assert a + b == b;
    } else {
      KeyBytesAppend(a[1..], b);
      FirstPart(a, b);
      Associate(PartBytes(a[0]), KeyBytes(a[1..]), KeyBytes(b));
    }
  }

  lemma FirstPart(a: Key, b: Key)
    requires a != []
    ensures KeyBytes(a + b) == PartBytes(a[0]) + KeyBytes(a[1..] + b)
  {
    assert (a + b)[1..] == a[1..] + b;
  }

  lemma WriteOnePart(key: Key, part: Part)
    ensures KeyBytes(key + [part]) == KeyBytes(key) + PartBytes(part)
  {
    KeyBytesAppend(key, [part]);
    assert KeyBytes([part]) == PartBytes(part) + KeyBytes([]);
  }

  /** What a reader gets; None where it runs past the end. A byte that is no tag is skipped. */
  function KeyOfBytes(bytes: Bytes): Option<Key>
    decreases |bytes|
  {
    if bytes == [] then Some([])
    else if bytes[0] == Y_ENCODING_STRING then
      match ReadVarBytes(bytes[1..])
      case None => None
      case Some((utf8, rest)) => Before([Text(utf8)], KeyOfBytes(rest))
    else if bytes[0] == Y_ENCODING_UINT32 then
      match ReadUint32(bytes[1..])
      case None => None
      case Some((n, rest)) => Before([Number(n)], KeyOfBytes(rest))
    else KeyOfBytes(bytes[1..])
  }

  function Before(front: Key, rest: Option<Key>): Option<Key> {
    if rest.None? then None else Some(front + rest.value)
  }

  method Encode(key: Key) returns (bytes: Bytes)
    ensures bytes == KeyBytes(key)
  {
    bytes := [];
    var i := 0;
    while i < |key|
      invariant i <= |key| && bytes == KeyBytes(key[..i])
    {
      bytes := WritePart(bytes, key[i]);
      WriteOnePart(key[..i], key[i]);
      assert key[..i + 1] == key[..i] + [key[i]];
      i := i + 1;
    }
    assert key[..i] == key;
  }

  method WritePart(encoder: Bytes, part: Part) returns (bytes: Bytes)
    ensures bytes == encoder + PartBytes(part)
  {
    match part {
      case Text(utf8) => bytes := encoder + ([Y_ENCODING_STRING] + VarBytes(utf8));
      case Number(n) => bytes := encoder + ([Y_ENCODING_UINT32] + Uint32(n));
    }
  }

  method Decode(bytes: Bytes) returns (key: Option<Key>)
    ensures key == KeyOfBytes(bytes)
  {
    var parts: Key, rest := [], bytes;
    assert KeyOfBytes(bytes).Some? ==> [] + KeyOfBytes(bytes).value == KeyOfBytes(bytes).value;
    while rest != []
      invariant KeyOfBytes(bytes) == Before(parts, KeyOfBytes(rest))
      decreases |rest|
    {
      var tag := rest[0];
      if tag == Y_ENCODING_STRING {
        var text := ReadVarBytes(rest[1..]);
        if text.None? { return None; }
        parts, rest := Next(bytes, parts, rest, Text(text.value.0), text.value.1);
      } else if tag == Y_ENCODING_UINT32 {
        var number := ReadUint32(rest[1..]);
        if number.None? { return None; }
        parts, rest := Next(bytes, parts, rest, Number(number.value.0), number.value.1);
      } else {
        rest := rest[1..];
      }
    }
    key := Some(parts);
    assert parts + [] == parts;
  }

  method Next(ghost bytes: Bytes, parts: Key, ghost rest: Bytes, part: Part, after: Bytes) returns (p: Key, r: Bytes)
    requires KeyOfBytes(bytes) == Before(parts, KeyOfBytes(rest))
    requires KeyOfBytes(rest) == Before([part], KeyOfBytes(after)) && |after| < |rest|
    ensures r == after && KeyOfBytes(bytes) == Before(p, KeyOfBytes(r))
  {
    p, r := parts + [part], after;
    if KeyOfBytes(after).Some? {
      assert parts + ([part] + KeyOfBytes(after).value) == p + KeyOfBytes(after).value;
    }
  }

  function Truncated(key: Key): Key {
    if key == [] then []
    else [if key[0].Number? then Number(key[0].n % UINT32) else key[0]] + Truncated(key[1..])
  }

  ghost predicate Is32Bit(key: Key) {
    forall i :: 0 <= i < |key| && key[i].Number? ==> key[i].n < UINT32
  }

  lemma {:induction false} Is32BitIsKept(key: Key)
    ensures Truncated(key) == key <==> Is32Bit(key)
  {
    if key == [] {
    } else {
      Is32BitIsKept(key[1..]);
      assert forall i :: 0 < i < |key| ==> key[i] == key[1..][i - 1];
      assert Truncated(key)[1..] == Truncated(key[1..]) && key == [key[0]] + key[1..];
    }
  }

  lemma DecodeText(utf8: Bytes, rest: Bytes)
    ensures KeyOfBytes(PartBytes(Text(utf8)) + rest) == Before([Text(utf8)], KeyOfBytes(rest))
  {
    var bytes := PartBytes(Text(utf8)) + rest;
    VarBytesRoundTrip(utf8, rest);
    assert bytes[1..] == VarBytes(utf8) + rest;
  }

  lemma DecodeNumber(n: nat, rest: Bytes)
    ensures KeyOfBytes(PartBytes(Number(n)) + rest) == Before([Number(n % UINT32)], KeyOfBytes(rest))
  {
    var bytes := PartBytes(Number(n)) + rest;
    Uint32RoundTrip(n, rest);
    assert bytes[1..] == Uint32(n) + rest;
  }

  lemma {:induction false} DecodeEncoded(key: Key)
    ensures KeyOfBytes(KeyBytes(key)) == Some(Truncated(key))
  {
    if key == [] {
    } else {
      DecodeEncoded(key[1..]);
      var rest := KeyBytes(key[1..]);
      if key[0].Text? { DecodeText(key[0].utf8, rest); } else { DecodeNumber(key[0].n, rest); }
    }
  }

  /** Exactly the keys with 32-bit numbers come back as they went in. */
  lemma RoundTripIff(key: Key)
    ensures KeyOfBytes(KeyBytes(key)) == Some(key) <==> Is32Bit(key)
  {
    DecodeEncoded(key);
    Is32BitIsKept(key);
  }

  lemma EncodeIsInjective(a: Key, b: Key)
    requires Is32Bit(a) && Is32Bit(b) && KeyBytes(a) == KeyBytes(b)
    ensures a == b
  {
    RoundTripIff(a);
    RoundTripIff(b);
  }

  /** Byte order, as ordered key-value stores compare. */
  predicate Less(a: Bytes, b: Bytes) {
    if b == [] then false
    else if a == [] then true
    else a[0] < b[0] || (a[0] == b[0] && Less(a[1..], b[1..]))
  }

  /** The bytes agree up to `k`; there `a` ends, or has the smaller byte. */
  ghost predicate FirstDiffers(a: Bytes, b: Bytes, k: nat) {
    k <= |a| && k < |b| && a[..k] == b[..k] && (k == |a| || a[k] < b[k])
  }

  lemma {:induction false} LessIff(a: Bytes, b: Bytes)
    ensures Less(a, b) <==> exists k: nat :: FirstDiffers(a, b, k)
  {
    if b == [] {
    } else if a == [] || a[0] != b[0] {
      assert a == [] || a[0] < b[0] ==> FirstDiffers(a, b, 0);
      forall k: nat | FirstDiffers(a, b, k) ensures Less(a, b) {
        assert k > 0 ==> a[..k][0] == b[..k][0];
      }
    } else {
      LessIff(a[1..], b[1..]);
      forall k: nat | FirstDiffers(a, b, k) ensures FirstDiffers(a[1..], b[1..], k - 1) {
        assert a[1..][..k - 1] == a[..k][1..] && b[1..][..k - 1] == b[..k][1..];
      }
      forall k: nat | FirstDiffers(a[1..], b[1..], k) ensures FirstDiffers(a, b, k + 1) {
        assert a[..k + 1] == [a[0]] + a[1..][..k] && b[..k + 1] == [b[0]] + b[1..][..k];
      }
    }
  }

  lemma {:induction false} LessAfterPrefix(front: Bytes, a: Bytes, b: Bytes)
    ensures Less(front + a, front + b) <==> Less(a, b)
  {
    if front == [] {
      assert front + a == a && front + b == b;
    } else {
      LessAfterPrefix(front[1..], a, b);
      assert (front + a)[1..] == front[1..] + a && (front + b)[1..] == front[1..] + b;
    }
  }

  lemma Uint32Order(m: nat, n: nat, rest: Bytes)
    requires m < UINT32 && n < UINT32
    ensures Less(Uint32(m) + rest, Uint32(n) + rest) <==> m < n
  {
    Digits(m);
    Digits(n);
    var a, b := Uint32(m), Uint32(n);
    FourBytes(a, b, rest);
    ValueOrder(Digit(m, 3), Digit(m, 2), Digit(m, 1), Digit(m, 0), Digit(n, 3), Digit(n, 2), Digit(n, 1), Digit(n, 0));
    SmallMod(m);
    SmallMod(n);
  }

  lemma SmallMod(n: nat)
    requires n < UINT32
    ensures n % UINT32 == n
  {
  }

  /** Most significant first: the first differing byte decides. */
  predicate Above(a0: nat, a1: nat, a2: nat, a3: nat, b0: nat, b1: nat, b2: nat, b3: nat) {
    a0 < b0 || (a0 == b0 && (a1 < b1 || (a1 == b1 && (a2 < b2 || (a2 == b2 && a3 < b3)))))
  }

  lemma ValueOrder(a0: Byte, a1: Byte, a2: Byte, a3: Byte, b0: Byte, b1: Byte, b2: Byte, b3: Byte)
    ensures Above(a0, a1, a2, a3, b0, b1, b2, b3) <==> Value(a0, a1, a2, a3) < Value(b0, b1, b2, b3)
  {
  }

  lemma FourBytes(a: Bytes, b: Bytes, rest: Bytes)
    requires |a| == |b| == 4
    ensures Less(a + rest, b + rest) <==> Above(a[0], a[1], a[2], a[3], b[0], b[1], b[2], b[3])
  {
    LessAfterByte(a, b, rest);
    LessAfterByte(a[1..], b[1..], rest);
    LessAfterByte(a[2..], b[2..], rest);
    LessAfterByte(a[3..], b[3..], rest);
    assert a[1..][1..] == a[2..] && a[2..][1..] == a[3..] && b[1..][1..] == b[2..] && b[2..][1..] == b[3..];
    assert a[3..][1..] == [] && b[3..][1..] == [] && [] + rest == rest;
    LessIsIrreflexive(rest);
  }

  lemma LessAfterByte(a: Bytes, b: Bytes, rest: Bytes)
    requires |a| > 0 && |b| > 0
    ensures Less(a + rest, b + rest) <==> a[0] < b[0] || (a[0] == b[0] && Less(a[1..] + rest, b[1..] + rest))
  {
    DropFirst(a, rest);
    DropFirst(b, rest);
  }

  lemma DropFirst(a: Bytes, rest: Bytes)
    requires a != []
    ensures (a + rest)[1..] == a[1..] + rest && (a + rest)[0] == a[0]
  {
  }

  /** Keys that differ only in the clock sort by clock, whatever stands before and after it. */
  lemma ClockOrder(front: Key, m: nat, n: nat, back: Key)
    requires m < UINT32 && n < UINT32
    ensures Less(KeyBytes(front + [Number(m)] + back), KeyBytes(front + [Number(n)] + back)) <==> m < n
  {
    Parts(front, m, back);
    Parts(front, n, back);
    var pre := KeyBytes(front) + [Y_ENCODING_UINT32];
    LessAfterPrefix(pre, Uint32(m) + KeyBytes(back), Uint32(n) + KeyBytes(back));
    Uint32Order(m, n, KeyBytes(back));
  }

  lemma Parts(front: Key, n: nat, back: Key)
    ensures KeyBytes(front + [Number(n)] + back)
         == KeyBytes(front) + [Y_ENCODING_UINT32] + (Uint32(n) + KeyBytes(back))
  {
    KeyBytesAppend(front + [Number(n)], back);
    WriteOnePart(front, Number(n));
    Regroup(KeyBytes(front), [Y_ENCODING_UINT32], Uint32(n), KeyBytes(back));
  }

  lemma Regroup(a: Bytes, b: Bytes, c: Bytes, d: Bytes)
    ensures (a + (b + c)) + d == (a + b) + (c + d)
  {
    Associate(a, b, c);
    Associate(a + b, c, d);
  }

  lemma {:induction false} LessIsIrreflexive(a: Bytes)
    ensures !Less(a, a)
  {
    if a == [] {
    } else {
      LessIsIrreflexive(a[1..]);
    }
  }
}
