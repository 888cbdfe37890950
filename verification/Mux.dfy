// src/mux.rs: the frame layout carried inside each AEAD record.
//   type(1) || stream_id(4, BE) || payload_len(2, BE) || payload
module Mux {
  import opened Bytes

  const FRAME_HEADER := 7
  const MAX_DATA := 16384
  const KEEPALIVE_LEN := 8

  const TYPE_OPEN: Byte := 1
  const TYPE_DATA: Byte := 2
  const TYPE_CLOSE: Byte := 3
  const TYPE_PING: Byte := 4
  const TYPE_PONG: Byte := 5

  type Id = U32

  type Nonce = s: seq<Byte> | |s| == KEEPALIVE_LEN witness [0, 0, 0, 0, 0, 0, 0, 0]

  datatype Frame =
    | Open(stream: Id)
    | Data(stream: Id, payload: seq<Byte>)
    | Close(stream: Id)
    | Ping(nonce: Nonce)
    | Pong(nonce: Nonce)
  {
    predicate Addressed() {
      Open? || Data? || Close?
    }

    function TypeByte(): Byte {
      match this
      case Open(_) => TYPE_OPEN
      case Data(_, _) => TYPE_DATA
      case Close(_) => TYPE_CLOSE
      case Ping(_) => TYPE_PING
      case Pong(_) => TYPE_PONG
    }

    function StreamField(): Id {
      if Addressed() then stream else 0
    }

    function Body(): seq<Byte> {
      match this
      case Open(_) => []
      case Data(_, payload) => payload
      case Close(_) => []
      case Ping(nonce) => nonce
      case Pong(nonce) => nonce
    }
  }

  datatype MuxError =
    | TooShort(got: nat)
    | UnknownType(frameType: Byte)
    | PayloadTooLarge(declared: nat, cap: nat)
    | Truncated(declared: nat, got: nat)
    | EmptyPayloadRequired(frameType: Byte)
    | BadKeepalive(got: nat)

  /** The bytes of a frame. The length field is the `as u16` cast: it keeps the low 16 bits only. */
  function Encode(f: Frame): seq<Byte> {
    Assemble(f.TypeByte(), f.StreamField(), |f.Body()| % U16_SIZE, f.Body())
  }

  function Assemble(frameType: Byte, stream: Id, declared: int, body: seq<Byte>): seq<Byte>
    requires 0 <= declared < U16_SIZE
  {
    [frameType] + Be32(stream) + Be16(declared) + body
  }

  function Decode(buf: seq<Byte>): Result<Frame, MuxError> {
    if |buf| < FRAME_HEADER then Err(TooShort(|buf|))
    else Interpret(buf[0], StreamOf(buf), DeclaredLen(buf), buf[FRAME_HEADER..])
  }

  function StreamOf(buf: seq<Byte>): Id
    requires |buf| >= FRAME_HEADER
  {
    FromBe32(buf[1], buf[2], buf[3], buf[4])
  }

  function DeclaredLen(buf: seq<Byte>): (n: int)
    requires |buf| >= FRAME_HEADER
    ensures 0 <= n < U16_SIZE
  {
    FromBe16(buf[5], buf[6])
  }

  function Interpret(frameType: Byte, stream: Id, declared: nat, payload: seq<Byte>): Result<Frame, MuxError> {
    if |payload| != declared then Err(Truncated(declared, |payload|))
    else if frameType == TYPE_OPEN || frameType == TYPE_CLOSE then
      if declared != 0 then Err(EmptyPayloadRequired(frameType))
      else if frameType == TYPE_OPEN then Ok(Open(stream))
      else Ok(Close(stream))
    else if frameType == TYPE_DATA then
      if declared > MAX_DATA then Err(PayloadTooLarge(declared, MAX_DATA))
      else Ok(Data(stream, payload))
    else if frameType == TYPE_PING || frameType == TYPE_PONG then
      if declared != KEEPALIVE_LEN then Err(BadKeepalive(declared))
      else if frameType == TYPE_PING then Ok(Ping(payload))
      else Ok(Pong(payload))
    else Err(UnknownType(frameType))
  }

  /** A caller-owned output buffer (`&mut Vec<u8>`). */
  class ByteVec {
    var data: seq<Byte>

    constructor ()
      ensures data == []
    {
      data := [];
    }

    method Clear()
      modifies this
      ensures data == []
    {
      data := [];
    }

    method Extend(bytes: seq<Byte>)
      modifies this
      ensures data == old(data) + bytes
    {
      data := data + bytes;
    }
  }

  /** `Frame::encode_into`: whatever the buffer held before is gone, the frame's bytes are all it holds. */
  method EncodeInto(f: Frame, out: ByteVec)
    modifies out
    ensures out.data == Encode(f)
  {
    out.Clear();
    var payload := f.Body();
    out.Extend([f.TypeByte()]);
    out.Extend(Be32(f.StreamField()));
    out.Extend(Be16(|payload| % U16_SIZE));
    out.Extend(payload);
  }

  // ── what the encoding is worth ─────────────────────────────────────────────

  /** The frames that survive the trip: the length cast does not wrap and the cap is respected. */
  predicate Encodable(f: Frame) {
    f.Data? ==> |f.payload| <= MAX_DATA
  }

  lemma AssembleLayout(frameType: Byte, stream: Id, declared: int, body: seq<Byte>)
    requires 0 <= declared < U16_SIZE
    ensures var b := Assemble(frameType, stream, declared, body);
            && |b| == FRAME_HEADER + |body| && b[0] == frameType && b[FRAME_HEADER..] == body
            && [b[1], b[2], b[3], b[4]] == Be32(stream) && [b[5], b[6]] == Be16(declared)
  {
  }

  lemma EncodeLayout(f: Frame)
    ensures var b := Encode(f);
            && |b| == FRAME_HEADER + |f.Body()|
            && b[0] == f.TypeByte()
            && StreamOf(b) == f.StreamField()
            && DeclaredLen(b) == |f.Body()| % U16_SIZE
            && b[FRAME_HEADER..] == f.Body()
  {
    AssembleLayout(f.TypeByte(), f.StreamField(), |f.Body()| % U16_SIZE, f.Body());
    ReadBack32(Encode(f), f.StreamField());
    ReadBack16(Encode(f), |f.Body()| % U16_SIZE);
  }

  lemma ReadBack32(b: seq<Byte>, n: U32)
    requires |b| >= FRAME_HEADER && [b[1], b[2], b[3], b[4]] == Be32(n)
    ensures StreamOf(b) == n
  {
    Be32RoundTrip(n);
    assert b[1] == [b[1], b[2], b[3], b[4]][0] && b[2] == [b[1], b[2], b[3], b[4]][1];
    assert b[3] == [b[1], b[2], b[3], b[4]][2] && b[4] == [b[1], b[2], b[3], b[4]][3];
  }

  lemma ReadBack16(b: seq<Byte>, n: int)
    requires |b| >= FRAME_HEADER && 0 <= n < U16_SIZE && [b[5], b[6]] == Be16(n)
    ensures DeclaredLen(b) == n
  {
    Be16RoundTrip(n, 0, 0);
    assert b[5] == [b[5], b[6]][0] && b[6] == [b[5], b[6]][1];
  }

  lemma DecodeFields(f: Frame)
    ensures Decode(Encode(f)) == Interpret(f.TypeByte(), f.StreamField(), |f.Body()| % U16_SIZE, f.Body())
  {
    EncodeLayout(f);
  }

  lemma LowBits(n: nat)
    ensures 0 <= n % U16_SIZE < U16_SIZE && (n % U16_SIZE == n <==> n < U16_SIZE)
  {
  }

  /** What `decode` makes of a frame's own fields under some declared length. */
  lemma InterpretFrame(f: Frame, declared: nat)
    ensures Interpret(f.TypeByte(), f.StreamField(), declared, f.Body())
            == if |f.Body()| != declared then Err(Truncated(declared, |f.Body()|))
               else if f.Data? && declared > MAX_DATA then Err(PayloadTooLarge(declared, MAX_DATA))
               else Ok(f)
  {
  }

  /** decode after encode is the identity on exactly the frames within the DATA cap. */
  lemma DecodeEncode(f: Frame)
    ensures Decode(Encode(f)) == Ok(f) <==> Encodable(f)
    ensures f.Data? && MAX_DATA < |f.payload| < U16_SIZE
            ==> Decode(Encode(f)) == Err(PayloadTooLarge(|f.payload|, MAX_DATA))
    ensures f.Data? && U16_SIZE <= |f.payload|
            ==> Decode(Encode(f)) == Err(Truncated(|f.payload| % U16_SIZE, |f.payload|))
  {
    DecodeFields(f);
    LowBits(|f.Body()|);
    InterpretFrame(f, |f.Body()| % U16_SIZE);
  }

  /** The stream field of a keepalive frame is ignored by `decode` and written as zero by `encode`. */
  function Canonical(buf: seq<Byte>): seq<Byte>
    requires |buf| >= FRAME_HEADER
  {
    if buf[0] == TYPE_PING || buf[0] == TYPE_PONG
    then [buf[0], 0, 0, 0, 0] + buf[5..]
    else buf
  }

  /** A buffer is its header fields followed by its payload. */
  lemma Fields(buf: seq<Byte>)
    requires |buf| >= FRAME_HEADER
    ensures buf == Assemble(buf[0], StreamOf(buf), DeclaredLen(buf), buf[FRAME_HEADER..])
  {
    Be32Of(buf[1], buf[2], buf[3], buf[4]);
    Be16RoundTrip(0, buf[5], buf[6]);
    assert buf == [buf[0]] + [buf[1], buf[2], buf[3], buf[4]] + [buf[5], buf[6]] + buf[FRAME_HEADER..];
  }

  lemma CanonicalFields(buf: seq<Byte>)
    requires |buf| >= FRAME_HEADER
    ensures var c := Canonical(buf);
            && |c| == |buf| && c[0] == buf[0] && c[5] == buf[5] && c[6] == buf[6]
            && c[FRAME_HEADER..] == buf[FRAME_HEADER..]
            && DeclaredLen(c) == DeclaredLen(buf)
            && StreamOf(c) == KeptStream(buf)
  {
  }

  /** The stream id `encode` writes for a frame decoded from `buf`. */
  function KeptStream(buf: seq<Byte>): Id
    requires |buf| >= FRAME_HEADER
  {
    if buf[0] == TYPE_PING || buf[0] == TYPE_PONG then 0 else StreamOf(buf)
  }

  lemma CanonicalLayout(buf: seq<Byte>)
    requires |buf| >= FRAME_HEADER
    ensures Canonical(buf) == Assemble(buf[0], KeptStream(buf), DeclaredLen(buf), buf[FRAME_HEADER..])
  {
    CanonicalFields(buf);
    Fields(Canonical(buf));
  }

  /** A decoded frame has the fields it was decoded from. */
  lemma InterpretedFields(frameType: Byte, stream: Id, declared: nat, payload: seq<Byte>)
    requires Interpret(frameType, stream, declared, payload).Ok?
    ensures var f := Interpret(frameType, stream, declared, payload).value;
            && Encodable(f) && f.TypeByte() == frameType && f.Body() == payload && |payload| == declared
            && f.StreamField() == if frameType == TYPE_PING || frameType == TYPE_PONG then 0 else stream
  {
  }

  lemma DecodedLayout(buf: seq<Byte>)
    requires Decode(buf).Ok?
    ensures Encodable(Decode(buf).value)
    ensures |buf| >= FRAME_HEADER
    ensures Encode(Decode(buf).value)
            == Assemble(buf[0], KeptStream(buf), DeclaredLen(buf), buf[FRAME_HEADER..])
  {
    InterpretedFields(buf[0], StreamOf(buf), DeclaredLen(buf), buf[FRAME_HEADER..]);
    LowBits(DeclaredLen(buf));
  }

  /** encode after decode gives the input back, up to the zeroed stream field of PING/PONG. */
  lemma EncodeDecode(buf: seq<Byte>)
    requires Decode(buf).Ok?
    ensures Encodable(Decode(buf).value)
    ensures |buf| >= FRAME_HEADER && Encode(Decode(buf).value) == Canonical(buf)
  {
    DecodedLayout(buf);
    CanonicalLayout(buf);
  }

  lemma DecodeOfCanonical(buf: seq<Byte>)
    requires |buf| >= FRAME_HEADER
    ensures Decode(Canonical(buf))
            == Interpret(buf[0], KeptStream(buf), DeclaredLen(buf), buf[FRAME_HEADER..])
  {
    CanonicalFields(buf);
    var c := Canonical(buf);
    assert c[FRAME_HEADER..] == buf[FRAME_HEADER..] && c[0] == buf[0];
    assert StreamOf(c) == KeptStream(buf) && DeclaredLen(c) == DeclaredLen(buf);
  }

  lemma StreamIsNotChecked(frameType: Byte, stream: Id, other: Id, declared: nat, payload: seq<Byte>)
    ensures Interpret(frameType, stream, declared, payload).Ok?
            <==> Interpret(frameType, other, declared, payload).Ok?
  {
  }

  lemma DecodeCanonical(buf: seq<Byte>)
    requires |buf| >= FRAME_HEADER
    ensures Decode(Canonical(buf)).Ok? <==> Decode(buf).Ok?
  {
    DecodeOfCanonical(buf);
    StreamIsNotChecked(buf[0], StreamOf(buf), KeptStream(buf), DeclaredLen(buf), buf[FRAME_HEADER..]);
  }

  /** `decode` accepts exactly the encodings of encodable frames, up to the ignored field. */
  lemma DecodeAccepts(buf: seq<Byte>)
    ensures Decode(buf).Ok? <==>
            |buf| >= FRAME_HEADER && exists f :: Encodable(f) && Encode(f) == Canonical(buf)
  {
    if Decode(buf).Ok? {
      EncodeDecode(buf);
      assert Encodable(Decode(buf).value);
    } else if |buf| >= FRAME_HEADER {
      DecodeCanonical(buf);
      forall f | Encodable(f)
        ensures Encode(f) != Canonical(buf)
      {
        DecodeEncode(f);
      }
    }
  }

  // ── in plain numbers ───────────────────────────────────────────────────────

  /** type(1) || stream_id(4, big-endian) || payload_len(2, big-endian) || payload, PING and PONG on stream 0. */
  lemma WireFormat(f: Frame)
    requires Encodable(f)
    ensures var b := Encode(f);
            && |b| >= 7 && b[5] as int * 256 + b[6] == |b| - 7
            && b[1] as int * 16777216 + b[2] as int * 65536 + b[3] as int * 256 + b[4]
               == (if f.Ping? || f.Pong? then 0 else f.stream)
            && match f
               case Open(_) => b[0] == 1 && |b| == 7
               case Data(_, payload) => b[0] == 2 && b[7..] == payload && |b| <= 16391
               case Close(_) => b[0] == 3 && |b| == 7
               case Ping(nonce) => b[0] == 4 && b[7..] == nonce && |b| == 15
               case Pong(nonce) => b[0] == 5 && b[7..] == nonce && |b| == 15
  {
    EncodeLayout(f);
    LowBits(|f.Body()|);
  }

  /** Which error `decode` gives for which buffer: the length is checked before the type, the type's own rule
      last. */
  lemma DecodeErrors(buf: seq<Byte>)
    ensures |buf| < 7 <==> Decode(buf) == Err(TooShort(|buf|))
    ensures |buf| >= 7 ==>
              var kind, declared, got := buf[0], buf[5] as int * 256 + buf[6], |buf| - 7;
              && (declared != got <==> Decode(buf) == Err(Truncated(declared, got)))
              && (declared == got && (kind == 0 || kind > 5) <==> Decode(buf) == Err(UnknownType(kind)))
              && (declared == got > 0 && (kind == 1 || kind == 3) <==> Decode(buf) == Err(EmptyPayloadRequired(kind)))
              && (declared == got > 16384 && kind == 2 <==> Decode(buf) == Err(PayloadTooLarge(got, 16384)))
              && (declared == got != 8 && (kind == 4 || kind == 5) <==> Decode(buf) == Err(BadKeepalive(got)))
  {
  }
}
