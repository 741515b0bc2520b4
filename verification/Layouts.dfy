/**
 * Where each field is in the bytes of a message, and which bytes are refused, independently of the order
 * in which they are written and read.
 */
module Layouts {
  import opened Common
  import opened Wire
  import opened ErrorPayloads
  import opened Frames
  import opened AuthCodec

  function Digit(value: nat, place: nat): nat {
    value / Pow256(place) % 256
  }

  /** The number is at this position, most significant byte first. */
  predicate NumberAt(b: Bytes, at: nat, width: nat, value: nat) {
    at + width <= |b| && forall k :: at <= k < at + width ==> b[k] == Digit(value, at + width - 1 - k)
  }

  function TwoBytes(high: nat, low: nat): nat {
    256 * high + low
  }

  predicate PartAt(b: Bytes, at: nat, part: Bytes) {
    at + |part| <= |b| && b[at..at + |part|] == part
  }

  lemma DivideTwice(value: nat, p: nat)
    requires 0 < p
    ensures value / 256 / p == value / (256 * p)
  {
    var q := value / 256;
    var r := q / p;
    assert value == 256 * q + value % 256 && q == p * r + q % p;
    assert value == (256 * p) * r + (256 * (q % p) + value % 256);
    assert 0 <= 256 * (q % p) + value % 256 < 256 * p;
    Quotient(value, 256 * p, r, 256 * (q % p) + value % 256);
  }

  lemma TimesGrows(a: nat, b: nat, p: nat)
    requires a <= b
    ensures p * a <= p * b
  {
  }

  lemma Quotient(value: nat, p: nat, q: nat, rest: nat)
    requires value == p * q + rest && rest < p
    ensures value / p == q
  {
    var d := value / p;
    assert p * (d + 1) == p * d + p && p * (q + 1) == p * q + p && value == p * d + value % p;
    if d < q {
      TimesGrows(d + 1, q, p);
    } else if q < d {
      TimesGrows(q + 1, d, p);
    }
  }

  lemma {:induction false} Digits(value: nat, width: nat, i: nat)
    requires i < width
    ensures BigEndian(value, width)[i] == Digit(value, width - 1 - i)
  {
    if i == width - 1 {
      assert Pow256(0) == 1;
    } else {
      Digits(value / 256, width - 1, i);
      DivideTwice(value, Pow256(width - 2 - i));
    }
  }

  lemma NumberFirst(value: nat, width: nat, rest: Bytes)
    ensures NumberAt(BigEndian(value, width) + rest, 0, width, value)
  {
    hide BigEndian, Digit;
    forall i | 0 <= i < width ensures BigEndian(value, width)[i] == Digit(value, width - 1 - i) {
      Digits(value, width, i);
    }
  }

  lemma NumberFurther(prefix: Bytes, b: Bytes, at: nat, width: nat, value: nat)
    requires NumberAt(b, at, width, value)
    ensures NumberAt(prefix + b, |prefix| + at, width, value)
  {
    hide Digit;
    var c := prefix + b;
    forall k | |prefix| + at <= k < |prefix| + at + width ensures c[k] == Digit(value, |prefix| + at + width - 1 - k) {
      assert c[k] == b[k - |prefix|];
    }
  }

  /** A number after a stretch of bytes, and the longer stretch that ends with it. */
  lemma NumberNext(prefix: Bytes, value: nat, width: nat, rest: Bytes) returns (longer: Bytes)
    ensures NumberAt(prefix + (BigEndian(value, width) + rest), |prefix|, width, value)
    ensures |longer| == |prefix| + width && longer + rest == prefix + (BigEndian(value, width) + rest)
  {
    hide NumberAt, BigEndian;
    longer := prefix + BigEndian(value, width);
    NumberFirst(value, width, rest);
    NumberFurther(prefix, BigEndian(value, width) + rest, 0, width, value);
  }

  lemma PartNext(prefix: Bytes, part: Bytes, rest: Bytes) returns (longer: Bytes)
    ensures PartAt(prefix + (part + rest), |prefix|, part)
    ensures |longer| == |prefix| + |part| && longer + rest == prefix + (part + rest)
  {
    longer := prefix + part;
    assert (prefix + (part + rest))[|prefix|..|prefix| + |part|] == part;
  }

  // ---------------------------------------------------------------- frame headers

  /** The seven numbers of a frame header, one after the other. */
  lemma HeaderLayout(h: WireHeader)
    ensures var b := EncodeHeader(h);
      && |b| == 32
      && NumberAt(b, 0, 2, h.version) && NumberAt(b, 2, 2, h.flags) && NumberAt(b, 4, 4, h.msgType)
      && NumberAt(b, 8, 4, h.peerMsgId) && NumberAt(b, 12, 8, h.srcTaberna) && NumberAt(b, 20, 8, h.dstTaberna)
      && NumberAt(b, 28, 4, h.payloadLen)
  {
    hide NumberAt, BigEndian;
    var r7: Bytes := [];
    var r6 := BigEndian(h.payloadLen, 4) + r7;
    var r5 := BigEndian(h.dstTaberna, 8) + r6;
    var r4 := BigEndian(h.srcTaberna, 8) + r5;
    var r3 := BigEndian(h.peerMsgId, 4) + r4;
    var r2 := BigEndian(h.msgType, 4) + r3;
    var r1 := BigEndian(h.flags, 2) + r2;
    var p1 := BigEndian(h.version, 2);
    NumberFirst(h.version, 2, r1);
    var p2 := NumberNext(p1, h.flags, 2, r2);
    var p3 := NumberNext(p2, h.msgType, 4, r3);
    var p4 := NumberNext(p3, h.peerMsgId, 4, r4);
    var p5 := NumberNext(p4, h.srcTaberna, 8, r5);
    var p6 := NumberNext(p5, h.dstTaberna, 8, r6);
    var _ := NumberNext(p6, h.payloadLen, 4, r7);
  }

  /** A header is refused for its length or its version, and for nothing else. */
  lemma HeaderRefusedIff(b: Bytes)
    ensures DecodeHeader(b) == Err(DecodeFailure) <==> |b| != 32
    ensures DecodeHeader(b) == Err(UnsupportedVersion) <==> |b| == 32 && TwoBytes(b[0], b[1]) != 1
    ensures DecodeHeader(b).Ok? <==> |b| == 32 && TwoBytes(b[0], b[1]) == 1
  {
    if |b| == 32 {
      assert b[..2][..1] == [b[0]] && b[..2][1] == b[1] && FromBigEndian([]) == 0;
      assert FromBigEndian(b[..2][..1]) == b[0];
    }
  }

  lemma HeaderParts(b: Bytes)
    requires DecodeHeader(b).Ok?
    ensures |b| == 32 && DecodeHeader(b).value.payloadLen == FromBigEndian(b[28..])
  {
    HeaderRefusedIff(b);
    assert b[2..][2..][4..][4..][8..][8..] == b[28..] && b[28..][..4] == b[28..];
  }

  /** What the one-shot reader makes of the bytes it has, for every one of its outcomes. */
  lemma FrameReadIff(input: Bytes, limit: nat)
    ensures |input| < 32 <==> ReadFrame(input, limit) == Ok(None)
    ensures |input| >= 32 ==>
      var read, len := ReadFrame(input, limit), FromBigEndian(input[28..32]);
      if TwoBytes(input[0], input[1]) != 1 then read == Err(UnsupportedVersion)
      else if len > limit then read == Err(ProtocolViolation)
      else if |input| < 32 + len then read == Err(ConnectionLost)
      else
        && read.Ok? && read.value.Some?
        && var taken := read.value.value;
           && EncodeHeader(taken.value.header) == input[..32]
           && taken.value.payload == input[32..32 + len] && taken.rest == input[32 + len..]
  {
    hide DecodeHeader, EncodeHeader, FromBigEndian;
    if |input| >= 32 {
      HeaderRefusedIff(input[..32]);
      if DecodeHeader(input[..32]).Ok? {
        HeaderParts(input[..32]);
        HeaderCanonical(input[..32]);
        assert input[..32][28..] == input[28..32];
      }
    }
  }

  // ---------------------------------------------------------------- chunks and errors

  lemma ChunkLayout(p: ChunkPayload)
    requires |p.chunk| < 0x1_0000_0000
    ensures var b := EncodeChunkHeader(p) + p.chunk;
      && NumberAt(b, 0, 4, p.requestMsgId) && NumberAt(b, 4, 8, p.chunkId)
      && NumberAt(b, 12, 2, if p.isLast then 1 else 0) && NumberAt(b, 14, 4, |p.chunk|) && PartAt(b, 18, p.chunk)
  {
    hide NumberAt, BigEndian;
    var r4 := p.chunk;
    var r3 := BigEndian(|p.chunk|, 4) + r4;
    var r2 := BigEndian(FlagBits(p.isLast), 2) + r3;
    var r1 := BigEndian(p.chunkId, 8) + r2;
    var b := BigEndian(p.requestMsgId, 4) + r1;
    assert EncodeChunkHeader(p) + p.chunk == b;
    NumberFirst(p.requestMsgId, 4, r1);
    var p2 := NumberNext(BigEndian(p.requestMsgId, 4), p.chunkId, 8, r2);
    var p3 := NumberNext(p2, FlagBits(p.isLast), 2, r3);
    var p4 := NumberNext(p3, |p.chunk|, 4, r4);
    assert p4 + r4 == b && |p4| == 18;
    assert b[18..18 + |r4|] == r4;
  }

  /** A chunk is refused if its length is not what it says, and if an undefined flag is set. */
  lemma ChunkRefusedIff(b: Bytes)
    ensures DecodeChunk(b) == Err(DecodeFailure) <==> |b| < 18 || FromBigEndian(b[14..18]) != |b| - 18
    ensures DecodeChunk(b) == Err(ProtocolViolation)
      <==> |b| >= 18 && FromBigEndian(b[14..18]) == |b| - 18 && TwoBytes(b[12], b[13]) > 1
    ensures DecodeChunk(b).Ok? ==> (DecodeChunk(b).value.isLast <==> TwoBytes(b[12], b[13]) == 1)
  {
    if |b| >= 18 {
      assert b[4..][8..][..2] == b[12..14] && b[4..][8..][2..][..4] == b[14..18];
      assert b[12..14][..1] == [b[12]] && b[12..14][1] == b[13] && FromBigEndian([]) == 0;
      assert FromBigEndian(b[12..14][..1]) == b[12];
    }
  }

  lemma ErrorLayout(p: ErrorPayload)
    ensures NumberAt(EncodeError(p), 0, 4, p.errorId) && PartAt(EncodeError(p), 4, p.message)
  {
    hide NumberAt, BigEndian;
    NumberFirst(p.errorId, 4, p.message);
  }

  // ---------------------------------------------------------------- authentication messages

  lemma {:induction false} LensAt(lens: seq<nat>, i: nat)
    requires i < |lens|
    ensures NumberAt(LenFields(lens), 4 * i, 4, lens[i])
  {
    hide NumberAt, BigEndian;
    if i == 0 {
      NumberFirst(lens[0], 4, LenFields(lens[1..]));
    } else {
      LensAt(lens[1..], i - 1);
      NumberFurther(BigEndian(lens[0], 4), LenFields(lens[1..]), 4 * (i - 1), 4, lens[i]);
    }
  }

  lemma {:induction false} LensLength(lens: seq<nat>)
    ensures |LenFields(lens)| == 4 * |lens|
  {
    if lens == [] {
    } else {
      LensLength(lens[1..]);
    }
  }

  /** How many bytes the first certificates take. */
  function CertsBefore(chain: seq<Bytes>, i: nat): nat
    requires i <= |chain|
  {
    if i == 0 then 0 else CertsBefore(chain, i - 1) + |chain[i - 1]|
  }

  lemma {:induction false} ShorterChain(chain: seq<Bytes>, i: nat)
    requires 0 < i <= |chain|
    ensures CertsBefore(chain, i) == |chain[0]| + CertsBefore(chain[1..], i - 1)
  {
    if i == 1 {
      assert CertsBefore(chain, 0) == 0;
    } else {
      ShorterChain(chain, i - 1);
    }
  }

  lemma {:induction false} CertAt(chain: seq<Bytes>, i: nat)
    requires i < |chain|
    ensures PartAt(ChainBody(chain), CertsBefore(chain, i), chain[i])
  {
    var rest := ChainBody(chain[1..]);
    if i == 0 {
      assert (chain[0] + rest)[..|chain[0]|] == chain[0];
    } else {
      CertAt(chain[1..], i - 1);
      ShorterChain(chain, i);
      var at := CertsBefore(chain[1..], i - 1);
      assert (chain[0] + rest)[|chain[0]| + at..|chain[0]| + at + |chain[i]|] == rest[at..at + |chain[i]|];
    }
  }

  lemma {:induction false} BodyLength(chain: seq<Bytes>)
    ensures |ChainBody(chain)| == CertsBefore(chain, |chain|)
  {
    if chain == [] {
    } else {
      BodyLength(chain[1..]);
      ShorterChain(chain, |chain|);
    }
  }

  /**
   * Kind and version, the lengths of the two paths, the number of certificates and their lengths, the
   * lengths of the two last parts, of which the second is `width` bytes wide; then all parts in the same
   * order.
   */
  predicate LaidOut(b: Bytes, kind: nat, p: Parts, width: nat) {
    var lens := 8 + 4 * |p.chain|;
    var origin := lens + 2 + width;
    var dest := origin + |p.origin|;
    var certs := dest + |p.dest|;
    var first := certs + CertsBefore(p.chain, |p.chain|);
    && NumberAt(b, 0, 1, kind) && NumberAt(b, 1, 1, 1)
    && NumberAt(b, 2, 2, |p.origin|) && NumberAt(b, 4, 2, |p.dest|) && NumberAt(b, 6, 2, |p.chain|)
    && (forall i :: 0 <= i < |p.chain| ==> NumberAt(b, 8 + 4 * i, 4, |p.chain[i]|))
    && NumberAt(b, lens, 2, |p.first|) && NumberAt(b, lens + 2, width, |p.second|)
    && PartAt(b, origin, p.origin) && PartAt(b, dest, p.dest)
    && (forall i :: 0 <= i < |p.chain| ==> PartAt(b, certs + CertsBefore(p.chain, i), p.chain[i]))
    && PartAt(b, first, p.first) && PartAt(b, first + |p.first|, p.second)
    && |b| == first + |p.first| + |p.second|
  }

  lemma NumberEarlier(b: Bytes, rest: Bytes, at: nat, width: nat, value: nat)
    requires NumberAt(b, at, width, value)
    ensures NumberAt(b + rest, at, width, value)
  {
    hide Digit;
  }

  lemma LensLaidOut(kind: nat, p: Parts, width: nat)
    ensures var b, lens := LenLayout(kind, p, width), 8 + 4 * |p.chain|;
      && |b| == lens + 2 + width
      && NumberAt(b, 0, 1, kind) && NumberAt(b, 1, 1, 1)
      && NumberAt(b, 2, 2, |p.origin|) && NumberAt(b, 4, 2, |p.dest|) && NumberAt(b, 6, 2, |p.chain|)
      && (forall i :: 0 <= i < |p.chain| ==> NumberAt(b, 8 + 4 * i, 4, |p.chain[i]|))
      && NumberAt(b, lens, 2, |p.first|) && NumberAt(b, lens + 2, width, |p.second|)
  {
    hide NumberAt, BigEndian, LenFields;
    var fields := LenFields(LensOf(p.chain));
    var r6: Bytes := [];
    var r5 := BigEndian(|p.second|, width) + r6;
    var r4 := BigEndian(|p.first|, 2) + r5;
    var r3 := BigEndian(|p.chain|, 2) + (fields + r4);
    var r2 := BigEndian(|p.dest|, 2) + r3;
    var r1 := BigEndian(|p.origin|, 2) + r2;
    var r0 := BigEndian(1, 1) + r1;
    NumberFirst(kind, 1, r0);
    var p1 := NumberNext(BigEndian(kind, 1), 1, 1, r1);
    var p2 := NumberNext(p1, |p.origin|, 2, r2);
    var p3 := NumberNext(p2, |p.dest|, 2, r3);
    var p4 := NumberNext(p3, |p.chain|, 2, fields + r4);
    LensLength(LensOf(p.chain));
    var p5 := p4 + fields;
    assert p5 + r4 == p4 + (fields + r4);
    var p6 := NumberNext(p5, |p.first|, 2, r5);
    var p7 := NumberNext(p6, |p.second|, width, r6);
    assert LenLayout(kind, p, width) == BigEndian(kind, 1) + r0 by { LensGrouped(kind, p, width); }
    forall i | 0 <= i < |p.chain| ensures NumberAt(p5 + r4, 8 + 4 * i, 4, |p.chain[i]|) {
      LensAt(LensOf(p.chain), i);
      NumberFurther(p4, fields, 4 * i, 4, |p.chain[i]|);
      NumberEarlier(p5, r4, 8 + 4 * i, 4, |p.chain[i]|);
    }
  }

  lemma LensGrouped(kind: nat, p: Parts, width: nat)
    ensures LenLayout(kind, p, width)
      == BigEndian(kind, 1) + (BigEndian(1, 1) + (BigEndian(|p.origin|, 2) + (BigEndian(|p.dest|, 2)
      + (BigEndian(|p.chain|, 2) + (LenFields(LensOf(p.chain))
      + (BigEndian(|p.first|, 2) + (BigEndian(|p.second|, width) + [])))))))
  {
    hide BigEndian, LenFields;
    var rest := BigEndian(|p.first|, 2) + (BigEndian(|p.second|, width) + []);
    var fields := LenFields(LensOf(p.chain));
    assert ChainHeader(p.chain) + rest == BigEndian(|p.chain|, 2) + (fields + rest);
  }

  lemma BodyLaidOut(p: Parts, prefix: Bytes)
    ensures var b, origin := prefix + BodyLayout(p), |prefix|;
      var dest := origin + |p.origin|;
      var certs := dest + |p.dest|;
      var first := certs + CertsBefore(p.chain, |p.chain|);
      && PartAt(b, origin, p.origin) && PartAt(b, dest, p.dest)
      && (forall i :: 0 <= i < |p.chain| ==> PartAt(b, certs + CertsBefore(p.chain, i), p.chain[i]))
      && PartAt(b, first, p.first) && PartAt(b, first + |p.first|, p.second)
      && |b| == first + |p.first| + |p.second|
  {
    hide PartAt, ChainBody, CertsBefore;
    var r4 := p.second + [];
    var r3 := p.first + r4;
    var r2 := ChainBody(p.chain) + r3;
    var r1 := p.dest + r2;
    var p1 := PartNext(prefix, p.origin, r1);
    var p2 := PartNext(p1, p.dest, r2);
    var p3 := PartNext(p2, ChainBody(p.chain), r3);
    BodyLength(p.chain);
    var p4 := PartNext(p3, p.first, r4);
    var p5 := PartNext(p4, p.second, []);
    forall i | 0 <= i < |p.chain| ensures PartAt(p3 + r3, |p2| + CertsBefore(p.chain, i), p.chain[i]) {
      CertAt(p.chain, i);
      PartInside(p2, ChainBody(p.chain), r3, CertsBefore(p.chain, i), p.chain[i]);
    }
  }

  lemma PartInside(prefix: Bytes, b: Bytes, rest: Bytes, at: nat, part: Bytes)
    requires PartAt(b, at, part)
    ensures PartAt(prefix + (b + rest), |prefix| + at, part)
  {
    assert (prefix + (b + rest))[|prefix| + at..|prefix| + at + |part|] == b[at..at + |part|];
  }

  lemma NumbersStay(b: Bytes, rest: Bytes)
    ensures forall at: nat, width: nat, value: nat :: NumberAt(b, at, width, value) ==>
      NumberAt(b + rest, at, width, value)
  {
    hide NumberAt;
    forall at: nat, width: nat, value: nat | NumberAt(b, at, width, value)
      ensures NumberAt(b + rest, at, width, value)
    {
      NumberEarlier(b, rest, at, width, value);
    }
  }

  lemma PartsAreLaidOut(kind: nat, p: Parts, width: nat)
    ensures LaidOut(PartsLayout(kind, p, width), kind, p, width)
  {
    hide NumberAt, PartAt, LenLayout, BodyLayout, CertsBefore;
    LensLaidOut(kind, p, width);
    NumbersStay(LenLayout(kind, p, width), BodyLayout(p));
    BodyLaidOut(p, LenLayout(kind, p, width));
  }

  lemma InitIsLaidOut(m: AuthInit)
    ensures LaidOut(InitLayout(m), 1, Parts(m.origin, m.dest, m.chain, m.nonceA, m.nonceACb), 2)
  {
    PartsAreLaidOut(1, InitParts(m), 2);
  }

  lemma ChallengeIsLaidOut(m: AuthChallenge)
    ensures LaidOut(ChallengeLayout(m), 2, Parts(m.origin, m.dest, m.chain, m.nonceB, m.signature), 4)
  {
    PartsAreLaidOut(2, ChallengeParts(m), 4);
  }

  lemma ProofIsLaidOut(m: AuthProof)
    ensures var b := ProofLayout(m);
      && NumberAt(b, 0, 1, 3) && NumberAt(b, 1, 1, 1)
      && NumberAt(b, 2, 2, |m.echoNonceBCb|) && NumberAt(b, 4, 4, |m.signature|)
      && PartAt(b, 8, m.echoNonceBCb) && PartAt(b, 8 + |m.echoNonceBCb|, m.signature)
  {
    hide NumberAt, PartAt, BigEndian;
    var r4 := m.signature + [];
    var r3 := m.echoNonceBCb + r4;
    var r2 := BigEndian(|m.signature|, 4) + r3;
    var r1 := BigEndian(|m.echoNonceBCb|, 2) + r2;
    assert ProofLayout(m) == BigEndian(3, 1) + (BigEndian(1, 1) + r1);
    NumberFirst(3, 1, BigEndian(1, 1) + r1);
    var p1 := NumberNext(BigEndian(3, 1), 1, 1, r1);
    var p2 := NumberNext(p1, |m.echoNonceBCb|, 2, r2);
    var p3 := NumberNext(p2, |m.signature|, 4, r3);
    var p4 := PartNext(p3, m.echoNonceBCb, r4);
    var _ := PartNext(p4, m.signature, []);
  }

  lemma CallbackIsLaidOut(m: CallbackInit)
    ensures var b, dest := CallbackLayout(m), 10 + |m.origin|;
      && NumberAt(b, 0, 1, 4) && NumberAt(b, 1, 1, 1)
      && NumberAt(b, 2, 2, |m.origin|) && NumberAt(b, 4, 2, |m.dest|)
      && NumberAt(b, 6, 2, |m.nonceBCb|) && NumberAt(b, 8, 2, |m.echoNonceACb|)
      && PartAt(b, 10, m.origin) && PartAt(b, dest, m.dest) && PartAt(b, dest + |m.dest|, m.nonceBCb)
      && PartAt(b, dest + |m.dest| + |m.nonceBCb|, m.echoNonceACb)
  {
    hide NumberAt, PartAt, BigEndian;
    var r8 := m.echoNonceACb + [];
    var r7 := m.nonceBCb + r8;
    var r6 := m.dest + r7;
    var r5 := m.origin + r6;
    var r4 := BigEndian(|m.echoNonceACb|, 2) + r5;
    var r3 := BigEndian(|m.nonceBCb|, 2) + r4;
    var r2 := BigEndian(|m.dest|, 2) + r3;
    var r1 := BigEndian(|m.origin|, 2) + r2;
    assert CallbackLayout(m) == BigEndian(4, 1) + (BigEndian(1, 1) + r1);
    NumberFirst(4, 1, BigEndian(1, 1) + r1);
    var p1 := NumberNext(BigEndian(4, 1), 1, 1, r1);
    var p2 := NumberNext(p1, |m.origin|, 2, r2);
    var p3 := NumberNext(p2, |m.dest|, 2, r3);
    var p4 := NumberNext(p3, |m.nonceBCb|, 2, r4);
    var p5 := NumberNext(p4, |m.echoNonceACb|, 2, r5);
    var p6 := PartNext(p5, m.origin, r6);
    var p7 := PartNext(p6, m.dest, r7);
    var p8 := PartNext(p7, m.nonceBCb, r8);
    var _ := PartNext(p8, m.echoNonceACb, []);
  }

  /** What may be sent: paths of 1 to 4096 bytes, 1 to 16 certificates, none of them empty, nonces of 32 bytes. */
  lemma LegalIff(i: AuthInit, c: CallbackInit, h: AuthChallenge, p: AuthProof)
    ensures InitOk(i)
      <==> PathLegal(i.origin) && PathLegal(i.dest) && CertsLegal(i.chain) && |i.nonceA| == 32 && |i.nonceACb| == 32
    ensures CallbackOk(c)
      <==> PathLegal(c.origin) && PathLegal(c.dest) && |c.nonceBCb| == 32 && |c.echoNonceACb| == 32
    ensures ChallengeOk(h)
      <==> && PathLegal(h.origin) && PathLegal(h.dest) && CertsLegal(h.chain)
           && |h.nonceB| == 32 && |h.signature| <= 0xFFFF_FFFF
    ensures ProofOk(p) <==> |p.echoNonceBCb| == 32 && |p.signature| <= 0xFFFF_FFFF
  {
  }

  predicate PathLegal(path: Bytes) {
    1 <= |path| <= 4096
  }

  predicate CertsLegal(chain: seq<Bytes>) {
    1 <= |chain| <= 16 && forall i :: 0 <= i < |chain| ==> 1 <= |chain[i]| <= 0xFFFF_FFFF
  }

  lemma {:induction false} LensRefusal(buf: Bytes, count: nat)
    ensures ReadLens(buf, count).Err? ==> ReadLens(buf, count).error == ProtocolViolation
    decreases count
  {
    if count == 0 || ReadInt(buf, 4).Err? {
    } else {
      LensRefusal(ReadInt(buf, 4).value.rest, count - 1);
    }
  }

  lemma {:induction false} ChainRefusal(buf: Bytes, lens: seq<nat>)
    ensures ReadCertChain(buf, lens).Err? ==> ReadCertChain(buf, lens).error == ProtocolViolation
    decreases lens
  {
    if lens == [] || ReadBytes(buf, lens[0]).Err? {
    } else {
      ChainRefusal(ReadBytes(buf, lens[0]).value.rest, lens[1..]);
    }
  }

  lemma PartLensRefusal(payload: Bytes, kind: nat, width: nat)
    ensures ReadPartLens(payload, kind, width).Err? ==> ReadPartLens(payload, kind, width).error == ProtocolViolation
  {
    forall b, n ensures ReadLens(b, n).Err? ==> ReadLens(b, n).error == ProtocolViolation {
      LensRefusal(b, n);
    }
  }

  lemma PartsRefusal(buf: Bytes, lens: PartLens)
    ensures ReadParts(buf, lens).Err? ==> ReadParts(buf, lens).error == ProtocolViolation
  {
    forall b, l ensures ReadCertChain(b, l).Err? ==> ReadCertChain(b, l).error == ProtocolViolation {
      ChainRefusal(b, l);
    }
  }

  lemma InitRefusal(payload: Bytes)
    ensures ParseInit(payload).Err? ==> ParseInit(payload).error == ProtocolViolation
  {
    hide ReadPartLens, ReadParts;
    var lens := ReadPartLens(payload, MSG_AUTH_INIT, 2);
    PartLensRefusal(payload, MSG_AUTH_INIT, 2);
    if lens.Ok? {
      PartsRefusal(lens.value.rest, lens.value.value);
    }
  }

  lemma ChallengeRefusal(payload: Bytes)
    ensures ParseChallenge(payload).Err? ==> ParseChallenge(payload).error == ProtocolViolation
  {
    hide ReadPartLens, ReadParts;
    var lens := ReadPartLens(payload, MSG_AUTH_CHALLENGE, 4);
    PartLensRefusal(payload, MSG_AUTH_CHALLENGE, 4);
    if lens.Ok? {
      PartsRefusal(lens.value.rest, lens.value.value);
    }
  }

  lemma ReadRefusal()
    ensures forall b, n :: ReadInt(b, n).Err? ==> ReadInt(b, n).error == ProtocolViolation
    ensures forall b, n :: ReadBytes(b, n).Err? ==> ReadBytes(b, n).error == ProtocolViolation
    ensures forall b, kind :: ReadTag(b, kind).Err? ==> ReadTag(b, kind).error == ProtocolViolation
  {
    hide FromBigEndian;
  }

  lemma CallbackRefusal(payload: Bytes)
    ensures ParseCallback(payload).Err? ==> ParseCallback(payload).error == ProtocolViolation
  {
    hide ReadInt, ReadBytes, ReadTag;
    ReadRefusal();
  }

  lemma ProofRefusal(payload: Bytes)
    ensures ParseProof(payload).Err? ==> ParseProof(payload).error == ProtocolViolation
  {
    hide ReadInt, ReadBytes, ReadTag;
    ReadRefusal();
  }

  /** Whatever is wrong with an authentication message, it is refused as a violation of the protocol. */
  lemma RefusedAsViolation(payload: Bytes)
    ensures ParseInit(payload).Err? ==> ParseInit(payload).error == ProtocolViolation
    ensures ParseChallenge(payload).Err? ==> ParseChallenge(payload).error == ProtocolViolation
    ensures ParseCallback(payload).Err? ==> ParseCallback(payload).error == ProtocolViolation
    ensures ParseProof(payload).Err? ==> ParseProof(payload).error == ProtocolViolation
  {
    hide ParseInit, ParseChallenge, ParseCallback, ParseProof;
    InitRefusal(payload);
    ChallengeRefusal(payload);
    CallbackRefusal(payload);
    ProofRefusal(payload);
  }

  /** A chunk too long for the length field of its frame is refused, and no other. */
  lemma ChunkTooLongIff(peerMsgId: U32, chunk: ChunkPayload)
    ensures SendBlobChunk(peerMsgId, chunk).Err? <==> 18 + |chunk.chunk| > 0xFFFF_FFFF
    ensures SendBlobChunk(peerMsgId, chunk).Err? ==> SendBlobChunk(peerMsgId, chunk).error == ProtocolViolation
  {
  }
}
