/** The byte layout of frame headers and of the blob chunk payload. */
module Wire {
  import opened Common

  type U16 = n: nat | n < 0x1_0000
  type U32 = n: nat | n < 0x1_0000_0000
  type U64 = n: nat | n < 0x1_0000_0000_0000_0000

  const PROTOCOL_VERSION: U16 := 1
  const HEADER_LEN: nat := 32
  const CHUNK_HEADER_LEN: nat := 18
  const MSG_BLOB_TRANSFER_CHUNK: U32 := 8

  // ---------------------------------------------------------------- big-endian integers

  function Pow256(n: nat): (p: nat)
    ensures 1 <= p
  {
    if n == 0 then 1 else 256 * Pow256(n - 1)
  }

  function BigEndian(value: nat, width: nat): (bytes: Bytes)
    ensures |bytes| == width
  {
    if width == 0 then [] else BigEndian(value / 256, width - 1) + [value % 256]
  }

  function FromBigEndian(bytes: Bytes): nat {
    if bytes == [] then 0 else FromBigEndian(bytes[..|bytes| - 1]) * 256 + bytes[|bytes| - 1]
  }

  lemma {:induction false} FromBigEndianOf(value: nat, width: nat)
    requires value < Pow256(width)
    ensures FromBigEndian(BigEndian(value, width)) == value
  {
    if width == 0 {
    } else {
      FromBigEndianOf(value / 256, width - 1);
      assert BigEndian(value, width)[..width - 1] == BigEndian(value / 256, width - 1);
    }
  }

  lemma {:induction false} BigEndianOf(bytes: Bytes)
    ensures FromBigEndian(bytes) < Pow256(|bytes|) && BigEndian(FromBigEndian(bytes), |bytes|) == bytes
  {
    if bytes == [] {
    } else {
      var front, last := bytes[..|bytes| - 1], bytes[|bytes| - 1];
      BigEndianOf(front);
      assert bytes == front + [last];
    }
  }

  lemma Widths()
    ensures Pow256(1) == 0x100 && Pow256(2) == 0x1_0000 && Pow256(4) == 0x1_0000_0000
    ensures Pow256(8) == 0x1_0000_0000_0000_0000
  {
    assert Pow256(3) == 0x100_0000;
    assert Pow256(5) == 0x100_0000_0000 && Pow256(6) == 0x1_0000_0000_0000 && Pow256(7) == 0x100_0000_0000_0000;
  }

  // ---------------------------------------------------------------- reading from the front

  /** What was read, and what is left to read. */
  datatype Taken<+T> = Taken(value: T, rest: Bytes)

  function ReadUint(buf: Bytes, width: nat, underrun: ErrorId): Result<Taken<nat>, ErrorId> {
    if |buf| < width then Err(underrun) else Ok(Taken(FromBigEndian(buf[..width]), buf[width..]))
  }

  lemma ReadUintOf(value: nat, width: nat, rest: Bytes, underrun: ErrorId)
    requires value < Pow256(width)
    ensures ReadUint(BigEndian(value, width) + rest, width, underrun) == Ok(Taken(value, rest))
  {
    FromBigEndianOf(value, width);
    var buf := BigEndian(value, width) + rest;
    assert buf[..width] == BigEndian(value, width) && buf[width..] == rest;
  }

  lemma ReadUintInverse(buf: Bytes, width: nat, underrun: ErrorId)
    requires width <= |buf|
    ensures ReadUint(buf, width, underrun).Ok?
    ensures var t := ReadUint(buf, width, underrun).value;
      t.value < Pow256(width) && buf == BigEndian(t.value, width) + t.rest && |t.rest| == |buf| - width
  {
    BigEndianOf(buf[..width]);
    assert buf == buf[..width] + buf[width..];
  }

  /** A field whose bytes are all there can be read, and fits its width. */
  lemma FieldsFit()
    ensures forall b: Bytes, w: nat | w <= |b| && w in {2, 4, 8} ::
      ReadUint(b, w, DecodeFailure).Ok? && ReadUint(b, w, DecodeFailure).value.value < Pow256(w)
    ensures Pow256(2) == 0x1_0000 && Pow256(4) == 0x1_0000_0000 && Pow256(8) == 0x1_0000_0000_0000_0000
  {
    Widths();
    forall b: Bytes, w: nat | w <= |b| && w in {2, 4, 8}
      ensures ReadUint(b, w, DecodeFailure).Ok? && ReadUint(b, w, DecodeFailure).value.value < Pow256(w)
    {
      ReadUintInverse(b, w, DecodeFailure);
    }
  }

  // ---------------------------------------------------------------- the frame header

  datatype WireHeader = WireHeader(
    version: U16, flags: U16, msgType: U32, peerMsgId: U32, srcTaberna: U64, dstTaberna: U64, payloadLen: U32)

  function EncodeHeader(h: WireHeader): (bytes: Bytes)
    ensures |bytes| == HEADER_LEN
  {
    BigEndian(h.version, 2) + (BigEndian(h.flags, 2) + (BigEndian(h.msgType, 4) + (BigEndian(h.peerMsgId, 4)
      + (BigEndian(h.srcTaberna, 8) + (BigEndian(h.dstTaberna, 8) + (BigEndian(h.payloadLen, 4) + []))))))
  }

  function DecodeHeader(buf: Bytes): Result<WireHeader, ErrorId> {
    if |buf| != HEADER_LEN then Err(DecodeFailure)
    else
      FieldsFit();
      var version := ReadUint(buf, 2, DecodeFailure).value;
      if version.value != PROTOCOL_VERSION then Err(UnsupportedVersion)
      else
        var flags := ReadUint(version.rest, 2, DecodeFailure).value;
        var msgType := ReadUint(flags.rest, 4, DecodeFailure).value;
        var peerMsgId := ReadUint(msgType.rest, 4, DecodeFailure).value;
        var src := ReadUint(peerMsgId.rest, 8, DecodeFailure).value;
        var dst := ReadUint(src.rest, 8, DecodeFailure).value;
        var payloadLen := ReadUint(dst.rest, 4, DecodeFailure).value;
        Ok(WireHeader(version.value, flags.value, msgType.value, peerMsgId.value,
                      src.value, dst.value, payloadLen.value))
  }

  lemma HeaderRoundTrip(h: WireHeader)
    ensures DecodeHeader(EncodeHeader(h)) == if h.version == PROTOCOL_VERSION then Ok(h) else Err(UnsupportedVersion)
  {
    hide ReadUint, Pow256, BigEndian;
    Widths();
    var r7: Bytes := [];
    var r6 := BigEndian(h.payloadLen, 4) + r7;
    var r5 := BigEndian(h.dstTaberna, 8) + r6;
    var r4 := BigEndian(h.srcTaberna, 8) + r5;
    var r3 := BigEndian(h.peerMsgId, 4) + r4;
    var r2 := BigEndian(h.msgType, 4) + r3;
    var r1 := BigEndian(h.flags, 2) + r2;
    ReadUintOf(h.version, 2, r1, DecodeFailure);
    ReadUintOf(h.flags, 2, r2, DecodeFailure);
    ReadUintOf(h.msgType, 4, r3, DecodeFailure);
    ReadUintOf(h.peerMsgId, 4, r4, DecodeFailure);
    ReadUintOf(h.srcTaberna, 8, r5, DecodeFailure);
    ReadUintOf(h.dstTaberna, 8, r6, DecodeFailure);
    ReadUintOf(h.payloadLen, 4, r7, DecodeFailure);
  }

  /** A header that decodes was written in the only possible way. */
  lemma HeaderCanonical(buf: Bytes)
    requires DecodeHeader(buf).Ok?
    ensures EncodeHeader(DecodeHeader(buf).value) == buf && DecodeHeader(buf).value.version == PROTOCOL_VERSION
  {
    hide ReadUint, Pow256, BigEndian;
    FieldsFit();
    var version := ReadUint(buf, 2, DecodeFailure).value;
    ReadUintInverse(buf, 2, DecodeFailure);
    var flags := ReadUint(version.rest, 2, DecodeFailure).value;
    ReadUintInverse(version.rest, 2, DecodeFailure);
    var msgType := ReadUint(flags.rest, 4, DecodeFailure).value;
    ReadUintInverse(flags.rest, 4, DecodeFailure);
    var peerMsgId := ReadUint(msgType.rest, 4, DecodeFailure).value;
    ReadUintInverse(msgType.rest, 4, DecodeFailure);
    var src := ReadUint(peerMsgId.rest, 8, DecodeFailure).value;
    ReadUintInverse(peerMsgId.rest, 8, DecodeFailure);
    var dst := ReadUint(src.rest, 8, DecodeFailure).value;
    ReadUintInverse(src.rest, 8, DecodeFailure);
    ReadUintInverse(dst.rest, 4, DecodeFailure);
    assert ReadUint(dst.rest, 4, DecodeFailure).value.rest == [];
  }

  function WirePayloadLen(len: nat): Result<U32, ErrorId> {
    if len < 0x1_0000_0000 then Ok(len) else Err(ProtocolViolation)
  }

  // ---------------------------------------------------------------- the blob chunk payload

  /** Of the sixteen flag bits only the lowest, for the last chunk, is defined. */
  datatype ChunkPayload = ChunkPayload(requestMsgId: U32, chunkId: U64, isLast: bool, chunk: Bytes)

  function FlagBits(isLast: bool): U16 {
    if isLast then 1 else 0
  }

  function EncodeChunkHeader(p: ChunkPayload): (bytes: Bytes)
    requires |p.chunk| < 0x1_0000_0000
    ensures |bytes| == CHUNK_HEADER_LEN
  {
    BigEndian(p.requestMsgId, 4) + (BigEndian(p.chunkId, 8)
      + (BigEndian(FlagBits(p.isLast), 2) + (BigEndian(|p.chunk|, 4) + [])))
  }

  function DecodeChunk(buf: Bytes): Result<ChunkPayload, ErrorId> {
    if |buf| < CHUNK_HEADER_LEN then Err(DecodeFailure)
    else
      FieldsFit();
      var requestMsgId := ReadUint(buf, 4, DecodeFailure).value;
      var chunkId := ReadUint(requestMsgId.rest, 8, DecodeFailure).value;
      var flags := ReadUint(chunkId.rest, 2, DecodeFailure).value;
      var chunkLen := ReadUint(flags.rest, 4, DecodeFailure).value;
      if |chunkLen.rest| != chunkLen.value then Err(DecodeFailure)
      else if flags.value > 1 then Err(ProtocolViolation)
      else Ok(ChunkPayload(requestMsgId.value, chunkId.value, flags.value == 1, chunkLen.rest))
  }

  lemma ChunkRoundTrip(p: ChunkPayload)
    requires |p.chunk| < 0x1_0000_0000
    ensures DecodeChunk(EncodeChunkHeader(p) + p.chunk) == Ok(p)
  {
    hide ReadUint, Pow256, BigEndian;
    Widths();
    var r3 := BigEndian(|p.chunk|, 4) + p.chunk;
    var r2 := BigEndian(FlagBits(p.isLast), 2) + r3;
    var r1 := BigEndian(p.chunkId, 8) + r2;
    assert EncodeChunkHeader(p) + p.chunk == BigEndian(p.requestMsgId, 4) + r1;
    ReadUintOf(p.requestMsgId, 4, r1, DecodeFailure);
    ReadUintOf(p.chunkId, 8, r2, DecodeFailure);
    ReadUintOf(FlagBits(p.isLast), 2, r3, DecodeFailure);
    ReadUintOf(|p.chunk|, 4, p.chunk, DecodeFailure);
  }

  lemma ChunkCanonical(buf: Bytes)
    requires DecodeChunk(buf).Ok?
    ensures var p := DecodeChunk(buf).value; |p.chunk| < 0x1_0000_0000 && EncodeChunkHeader(p) + p.chunk == buf
  {
    hide ReadUint, Pow256, BigEndian;
    FieldsFit();
    var requestMsgId := ReadUint(buf, 4, DecodeFailure).value;
    ReadUintInverse(buf, 4, DecodeFailure);
    var chunkId := ReadUint(requestMsgId.rest, 8, DecodeFailure).value;
    ReadUintInverse(requestMsgId.rest, 8, DecodeFailure);
    var flags := ReadUint(chunkId.rest, 2, DecodeFailure).value;
    ReadUintInverse(chunkId.rest, 2, DecodeFailure);
    ReadUintInverse(flags.rest, 4, DecodeFailure);
  }
}
