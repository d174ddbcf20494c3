/**
 Wire frames: a type, a context string, and a sync-protocol message; and the state-vector record of
 `tex_sync`. What one side builds, the other side takes apart into the same parts.
 */
module Frames {
  import opened Base
  import opened Lib0

  const SUB_DOC_MESSAGE_SYNC: nat := 22
  const MESSAGE_YJS_UPDATE: nat := 2

  lemma {:induction false} NumberIsInFront(bytes: Bytes)
    requires ReadVarUint(bytes).Some?
    ensures var rest := ReadVarUint(bytes).value.1; bytes[|bytes| - |rest|..] == rest
  {
    if bytes[0] < 128 {
    } else {
      NumberIsInFront(bytes[1..]);
      var rest := ReadVarUint(bytes).value.1;
      assert bytes[1..][|bytes| - 1 - |rest|..] == bytes[|bytes| - |rest|..];
    }
  }

  lemma BytesAreInFront(bytes: Bytes)
    requires ReadVarBytes(bytes).Some?
    ensures var rest := ReadVarBytes(bytes).value.1; bytes[|bytes| - |rest|..] == rest
  {
    NumberIsInFront(bytes);
    var (n, tail) := ReadVarUint(bytes).value;
    assert tail[n..] == bytes[|bytes| - |tail|..][n..] == bytes[|bytes| - |tail| + n..];
  }

  /** A cursor over an array of bytes; reading past the end throws (None). */
  class Decoder {
    const arr: Bytes
    var pos: nat

    ghost predicate Valid()
      reads this
    {
      pos <= |arr|
    }

    ghost function Rest(): Bytes
      requires Valid()
      reads this
    {
      arr[pos..]
    }

    constructor (arr: Bytes)
      ensures Valid() && this.arr == arr && Rest() == arr
    {
      this.arr, pos := arr, 0;
    }

    method Clone() returns (copy: Decoder)
      requires Valid()
      ensures fresh(copy) && copy.Valid() && copy.Rest() == Rest()
    {
      copy := new Decoder(arr);
      copy.pos := pos;
    }

    method HasContent() returns (some: bool)
      requires Valid()
      ensures some <==> Rest() != []
    {
      some := pos != |arr|;
    }

    method ReadNumber() returns (n: Option<nat>)
      requires Valid()
      modifies this
      ensures Valid()
      ensures match ReadVarUint(old(Rest()))
              case None => n.None?
              case Some((value, rest)) => n == Some(value) && Rest() == rest
    {
      var r := ReadVarUint(arr[pos..]);
      if r.None? { return None; }
      NumberIsInFront(arr[pos..]);
      n, pos := Some(r.value.0), |arr| - |r.value.1|;
    }

    method ReadData() returns (data: Option<Bytes>)
      requires Valid()
      modifies this
      ensures Valid()
      ensures match ReadVarBytes(old(Rest()))
              case None => data.None?
              case Some((value, rest)) => data == Some(value) && Rest() == rest
    {
      var r := ReadVarBytes(arr[pos..]);
      if r.None? { return None; }
      BytesAreInFront(arr[pos..]);
      data, pos := Some(r.value.0), |arr| - |r.value.1|;
    }
  }

  datatype Frame = Frame(kind: nat, context: Bytes, payload: Bytes)

  function FrameBytes(f: Frame): Bytes {
    VarUint(f.kind) + VarBytes(f.context) + f.payload
  }

  function FrameOfBytes(bytes: Bytes): Option<Frame> {
    match ReadVarUint(bytes)
    case None => None
    case Some((kind, rest)) =>
      match ReadVarBytes(rest)
      case None => None
      case Some((context, payload)) => Some(Frame(kind, context, payload))
  }

  lemma FrameRoundTrip(f: Frame)
    ensures FrameOfBytes(FrameBytes(f)) == Some(f)
  {
    VarUintRoundTrip(f.kind, VarBytes(f.context) + f.payload);
    VarBytesRoundTrip(f.context, f.payload);
    assert FrameBytes(f) == VarUint(f.kind) + (VarBytes(f.context) + f.payload);
  }

  /** For any bytes: true exactly for a frame that has something behind its header. */
  method NeedSend(bytes: Bytes) returns (need: bool)
    ensures need <==> FrameOfBytes(bytes).Some? && FrameOfBytes(bytes).value.payload != []
  {
    var decoder := new Decoder(bytes);
    var some := decoder.HasContent();
    if !some { return false; }
    var kind := decoder.ReadNumber();
    if kind.None? { return false; }
    some := decoder.HasContent();
    if !some { return false; }
    var context := decoder.ReadData();
    if context.None? { return false; }
    need := decoder.HasContent();
  }

  lemma HeaderOnlyIsNotSent(kind: nat, context: Bytes, payload: Bytes)
    ensures var f := FrameOfBytes(FrameBytes(Frame(kind, context, payload)));
            f.Some? && (f.value.payload != [] <==> payload != [])
  {
    FrameRoundTrip(Frame(kind, context, payload));
  }

  /** The server's answer to a sub-document frame: header first, then what the sync protocol replies, if anything. */
  method ReplyToSubdocFrame(context: Bytes, reply: Bytes) returns (sent: Option<Bytes>)
    ensures sent.Some? <==> reply != []
    ensures sent.Some? ==> FrameOfBytes(sent.value) == Some(Frame(SUB_DOC_MESSAGE_SYNC, context, reply))
  {
    var encoder := VarUint(SUB_DOC_MESSAGE_SYNC);
    encoder := encoder + VarBytes(context);
    encoder := encoder + reply;
    FrameRoundTrip(Frame(SUB_DOC_MESSAGE_SYNC, context, reply));
    HeaderOnlyIsNotSent(SUB_DOC_MESSAGE_SYNC, context, reply);
    var need := NeedSend(encoder);
    if |encoder| > 1 && need { sent := Some(encoder); } else { sent := None; }
  }

  /** A sync-protocol update message. */
  function UpdateMessage(update: Bytes): Bytes {
    VarUint(MESSAGE_YJS_UPDATE) + VarBytes(update)
  }

  function UpdateOfMessage(bytes: Bytes): Option<Bytes> {
    match ReadVarUint(bytes)
    case None => None
    case Some((kind, rest)) =>
      if kind != MESSAGE_YJS_UPDATE || ReadVarBytes(rest).None? then None else Some(ReadVarBytes(rest).value.0)
  }

  /** Looks ahead: the decoder itself is not moved. */
  method ReadYjsUpdatePayload(decoder: Decoder) returns (update: Option<Bytes>)
    requires decoder.Valid()
    ensures update == UpdateOfMessage(decoder.Rest())
  {
    var copy := decoder.Clone();
    var kind := copy.ReadNumber();
    if kind != Some(MESSAGE_YJS_UPDATE) { return None; }
    update := copy.ReadData();
  }

  function BuildSubdocUpdateFrame(context: Bytes, update: Bytes): Bytes {
    VarUint(SUB_DOC_MESSAGE_SYNC) + VarBytes(context) + UpdateMessage(update)
  }

  /** The server, on a frame the client built: same context, same update, and the message left to be applied. */
  method ReceiveSubdocUpdate(frame: Bytes, ghost context: Bytes, ghost update: Bytes)
    returns (decoder: Decoder, kind: Option<nat>, read: Option<Bytes>, payload: Option<Bytes>)
    requires frame == BuildSubdocUpdateFrame(context, update)
    ensures kind == Some(SUB_DOC_MESSAGE_SYNC) && read == Some(context) && payload == Some(update)
    ensures fresh(decoder) && decoder.Valid() && decoder.Rest() == UpdateMessage(update)
  {
    SubdocFrame(context, update);
    decoder := new Decoder(frame);
    kind := decoder.ReadNumber();
    read := decoder.ReadData();
    payload := ReadYjsUpdatePayload(decoder);
  }

  lemma SubdocFrame(context: Bytes, update: Bytes)
    ensures FrameOfBytes(BuildSubdocUpdateFrame(context, update))
         == Some(Frame(SUB_DOC_MESSAGE_SYNC, context, UpdateMessage(update)))
    ensures UpdateOfMessage(UpdateMessage(update)) == Some(update)
  {
    FrameRoundTrip(Frame(SUB_DOC_MESSAGE_SYNC, context, UpdateMessage(update)));
    VarUintRoundTrip(MESSAGE_YJS_UPDATE, VarBytes(update));
    VarBytesRoundTrip(update, []);
    assert VarBytes(update) + [] == VarBytes(update);
  }

  /**
   The client's answer to a sub-document frame: only a sync step 1 gets one, with the reply behind the
   header, so a frame without a payload is never sent.
   */
  method AnswerSubdocFrame(known: bool, step1: bool, context: Bytes, reply: Bytes, payload: Bytes)
    returns (out: Bytes)
    ensures out != [] ==> FrameOfBytes(out) == Some(Frame(SUB_DOC_MESSAGE_SYNC, context, reply)) && reply != []
    ensures out != [] <==> known && payload != [] && step1 && reply != []
  {
    out := [];
    if !known || payload == [] { return; }
    if step1 && reply != [] {
      FrameRoundTrip(Frame(SUB_DOC_MESSAGE_SYNC, context, reply));
      out := VarUint(SUB_DOC_MESSAGE_SYNC);
      out := out + VarBytes(context);
      out := out + reply;
    }
  }

  /** The value of the state-vector row. */
  function StateVectorRecord(clock: nat, sv: Bytes): Bytes {
    VarUint(clock) + VarBytes(sv)
  }

  function DecodeStateVector(record: Bytes): Option<(nat, Bytes)> {
    match ReadVarUint(record)
    case None => None
    case Some((clock, rest)) => if ReadVarBytes(rest).None? then None else Some((clock, ReadVarBytes(rest).value.0))
  }

  lemma StateVectorRoundTrip(clock: nat, sv: Bytes)
    ensures DecodeStateVector(StateVectorRecord(clock, sv)) == Some((clock, sv))
  {
    VarUintRoundTrip(clock, VarBytes(sv));
    VarBytesRoundTrip(sv, []);
    assert VarBytes(sv) + [] == VarBytes(sv);
  }
}
