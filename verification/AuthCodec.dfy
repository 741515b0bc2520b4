/**
 * The messages of the socket authentication exchange. Each starts with its kind and a version, then
 * gives the lengths of all its parts, then the parts themselves. Paths are opaque byte strings.
 */
module AuthCodec {
  import opened Common
  import opened Wire

  const NONCE_LEN: nat := 32
  const PATH_MAX_LEN: nat := 4096
  const MAX_CERT_CHAIN_LEN: nat := 16
  const AUTH_VERSION: nat := 1
  const MSG_AUTH_INIT: nat := 1
  const MSG_AUTH_CHALLENGE: nat := 2
  const MSG_AUTH_PROOF: nat := 3
  const MSG_CALLBACK_INIT: nat := 4

  datatype AuthInit = AuthInit(origin: Bytes, dest: Bytes, chain: seq<Bytes>, nonceA: Bytes, nonceACb: Bytes)
  datatype CallbackInit = CallbackInit(origin: Bytes, dest: Bytes, nonceBCb: Bytes, echoNonceACb: Bytes)
  datatype AuthChallenge = AuthChallenge(origin: Bytes, dest: Bytes, chain: seq<Bytes>, nonceB: Bytes, signature: Bytes)
  datatype AuthProof = AuthProof(echoNonceBCb: Bytes, signature: Bytes)

  // ---------------------------------------------------------------- what can be encoded

  predicate PathOk(path: Bytes) {
    0 < |path| <= PATH_MAX_LEN
  }

  predicate ChainOk(chain: seq<Bytes>) {
    0 < |chain| <= MAX_CERT_CHAIN_LEN && forall i :: 0 <= i < |chain| ==> 0 < |chain[i]| < 0x1_0000_0000
  }

  predicate InitOk(m: AuthInit) {
    PathOk(m.origin) && PathOk(m.dest) && ChainOk(m.chain) && |m.nonceA| == NONCE_LEN && |m.nonceACb| == NONCE_LEN
  }

  predicate CallbackOk(m: CallbackInit) {
    PathOk(m.origin) && PathOk(m.dest) && |m.nonceBCb| == NONCE_LEN && |m.echoNonceACb| == NONCE_LEN
  }

  predicate ChallengeOk(m: AuthChallenge) {
    PathOk(m.origin) && PathOk(m.dest) && ChainOk(m.chain) && |m.nonceB| == NONCE_LEN && |m.signature| < 0x1_0000_0000
  }

  predicate ProofOk(m: AuthProof) {
    |m.echoNonceBCb| == NONCE_LEN && |m.signature| < 0x1_0000_0000
  }

  // ---------------------------------------------------------------- byte layout

  function Tag(kind: nat): Bytes {
    BigEndian(kind, 1) + BigEndian(AUTH_VERSION, 1)
  }

  function LensOf(chain: seq<Bytes>): seq<nat> {
    seq(|chain|, i requires 0 <= i < |chain| => |chain[i]|)
  }

  function LenFields(lens: seq<nat>): Bytes {
    if lens == [] then [] else BigEndian(lens[0], 4) + LenFields(lens[1..])
  }

  function ChainHeader(chain: seq<Bytes>): Bytes {
    BigEndian(|chain|, 2) + LenFields(LensOf(chain))
  }

  function ChainBody(chain: seq<Bytes>): Bytes {
    if chain == [] then [] else chain[0] + ChainBody(chain[1..])
  }

  /** What two of the messages have in common: two paths, a certificate chain and two more parts. */
  datatype Parts = Parts(origin: Bytes, dest: Bytes, chain: seq<Bytes>, first: Bytes, second: Bytes)

  datatype PartLens = PartLens(origin: nat, dest: nat, certs: seq<nat>, first: nat, second: nat)

  function LenLayout(kind: nat, p: Parts, width: nat): Bytes {
    Tag(kind) + (BigEndian(|p.origin|, 2) + (BigEndian(|p.dest|, 2) + (ChainHeader(p.chain)
      + (BigEndian(|p.first|, 2) + (BigEndian(|p.second|, width) + [])))))
  }

  function BodyLayout(p: Parts): Bytes {
    p.origin + (p.dest + (ChainBody(p.chain) + (p.first + (p.second + []))))
  }

  /** `width` is the width of the last length field. */
  function PartsLayout(kind: nat, p: Parts, width: nat): Bytes {
    LenLayout(kind, p, width) + BodyLayout(p)
  }

  function InitParts(m: AuthInit): Parts {
    Parts(m.origin, m.dest, m.chain, m.nonceA, m.nonceACb)
  }

  function ChallengeParts(m: AuthChallenge): Parts {
    Parts(m.origin, m.dest, m.chain, m.nonceB, m.signature)
  }

  function InitLayout(m: AuthInit): Bytes {
    PartsLayout(MSG_AUTH_INIT, InitParts(m), 2)
  }

  function ChallengeLayout(m: AuthChallenge): Bytes {
    PartsLayout(MSG_AUTH_CHALLENGE, ChallengeParts(m), 4)
  }

  function CallbackLayout(m: CallbackInit): Bytes {
    Tag(MSG_CALLBACK_INIT) + (BigEndian(|m.origin|, 2) + (BigEndian(|m.dest|, 2)
      + (BigEndian(|m.nonceBCb|, 2) + (BigEndian(|m.echoNonceACb|, 2)
      + (m.origin + (m.dest + (m.nonceBCb + (m.echoNonceACb + []))))))))
  }

  function ProofLayout(m: AuthProof): Bytes {
    Tag(MSG_AUTH_PROOF) + (BigEndian(|m.echoNonceBCb|, 2)
      + (BigEndian(|m.signature|, 4) + (m.echoNonceBCb + (m.signature + []))))
  }

  // ---------------------------------------------------------------- reading

  function ReadInt(buf: Bytes, width: nat): Result<Taken<nat>, ErrorId> {
    ReadUint(buf, width, ProtocolViolation)
  }

  function ReadBytes(buf: Bytes, len: nat): Result<Taken<Bytes>, ErrorId> {
    if |buf| < len then Err(ProtocolViolation) else Ok(Taken(buf[..len], buf[len..]))
  }

  function ReadTag(buf: Bytes, kind: nat): Result<Taken<Unit>, ErrorId> {
    var msgType :- ReadInt(buf, 1);
    var version :- ReadInt(msgType.rest, 1);
    if msgType.value != kind || version.value != AUTH_VERSION then Err(ProtocolViolation)
    else Ok(Taken(Unit, version.rest))
  }

  function ReadLens(buf: Bytes, count: nat): Result<Taken<seq<nat>>, ErrorId>
    decreases count
  {
    if count == 0 then Ok(Taken([], buf))
    else
      var len :- ReadInt(buf, 4);
      if len.value == 0 then Err(ProtocolViolation)
      else
        var more :- ReadLens(len.rest, count - 1);
        Ok(Taken([len.value] + more.value, more.rest))
  }

  function ReadCertLens(buf: Bytes): Result<Taken<seq<nat>>, ErrorId> {
    var count :- ReadInt(buf, 2);
    if count.value == 0 || count.value > MAX_CERT_CHAIN_LEN then Err(ProtocolViolation)
    else ReadLens(count.rest, count.value)
  }

  function ReadCertChain(buf: Bytes, lens: seq<nat>): Result<Taken<seq<Bytes>>, ErrorId>
    decreases lens
  {
    if lens == [] then Ok(Taken([], buf))
    else
      var cert :- ReadBytes(buf, lens[0]);
      var more :- ReadCertChain(cert.rest, lens[1..]);
      Ok(Taken([cert.value] + more.value, more.rest))
  }

  predicate PathLensOk(origin: nat, dest: nat) {
    0 < origin <= PATH_MAX_LEN && 0 < dest <= PATH_MAX_LEN
  }

  function ReadPartLens(payload: Bytes, kind: nat, width: nat): Result<Taken<PartLens>, ErrorId> {
    var tag :- ReadTag(payload, kind);
    var origin :- ReadInt(tag.rest, 2);
    var dest :- ReadInt(origin.rest, 2);
    var certs :- ReadCertLens(dest.rest);
    var first :- ReadInt(certs.rest, 2);
    var second :- ReadInt(first.rest, width);
    Ok(Taken(PartLens(origin.value, dest.value, certs.value, first.value, second.value), second.rest))
  }

  function ReadParts(buf: Bytes, lens: PartLens): Result<Parts, ErrorId> {
    var origin :- ReadBytes(buf, lens.origin);
    var dest :- ReadBytes(origin.rest, lens.dest);
    var chain :- ReadCertChain(dest.rest, lens.certs);
    var first :- ReadBytes(chain.rest, lens.first);
    var second :- ReadBytes(first.rest, lens.second);
    if second.rest != [] then Err(ProtocolViolation)
    else Ok(Parts(origin.value, dest.value, chain.value, first.value, second.value))
  }

  function ParseInit(payload: Bytes): Result<AuthInit, ErrorId> {
    var lens :- ReadPartLens(payload, MSG_AUTH_INIT, 2);
    if !PathLensOk(lens.value.origin, lens.value.dest) || lens.value.first != NONCE_LEN
      || lens.value.second != NONCE_LEN
    then Err(ProtocolViolation)
    else
      var p :- ReadParts(lens.rest, lens.value);
      Ok(AuthInit(p.origin, p.dest, p.chain, p.first, p.second))
  }

  function ParseChallenge(payload: Bytes): Result<AuthChallenge, ErrorId> {
    var lens :- ReadPartLens(payload, MSG_AUTH_CHALLENGE, 4);
    if !PathLensOk(lens.value.origin, lens.value.dest) || lens.value.first != NONCE_LEN then Err(ProtocolViolation)
    else
      var p :- ReadParts(lens.rest, lens.value);
      Ok(AuthChallenge(p.origin, p.dest, p.chain, p.first, p.second))
  }

  function ParseCallback(payload: Bytes): Result<CallbackInit, ErrorId> {
    var tag :- ReadTag(payload, MSG_CALLBACK_INIT);
    var originLen :- ReadInt(tag.rest, 2);
    var destLen :- ReadInt(originLen.rest, 2);
    var nonceLen :- ReadInt(destLen.rest, 2);
    var echoLen :- ReadInt(nonceLen.rest, 2);
    if !PathLensOk(originLen.value, destLen.value) || nonceLen.value != NONCE_LEN || echoLen.value != NONCE_LEN
    then Err(ProtocolViolation)
    else
      var origin :- ReadBytes(echoLen.rest, originLen.value);
      var dest :- ReadBytes(origin.rest, destLen.value);
      var nonceBCb :- ReadBytes(dest.rest, nonceLen.value);
      var echoNonceACb :- ReadBytes(nonceBCb.rest, echoLen.value);
      if echoNonceACb.rest != [] then Err(ProtocolViolation)
      else Ok(CallbackInit(origin.value, dest.value, nonceBCb.value, echoNonceACb.value))
  }

  function ParseProof(payload: Bytes): Result<AuthProof, ErrorId> {
    var tag :- ReadTag(payload, MSG_AUTH_PROOF);
    var echoLen :- ReadInt(tag.rest, 2);
    var signatureLen :- ReadInt(echoLen.rest, 4);
    if echoLen.value != NONCE_LEN then Err(ProtocolViolation)
    else
      var echoNonceBCb :- ReadBytes(signatureLen.rest, echoLen.value);
      var signature :- ReadBytes(echoNonceBCb.rest, signatureLen.value);
      if signature.rest != [] then Err(ProtocolViolation)
      else Ok(AuthProof(echoNonceBCb.value, signature.value))
  }

  // ---------------------------------------------------------------- reading what was written

  lemma ReadIntOf(value: nat, width: nat, rest: Bytes)
    requires width in {1, 2, 4} && (width == 1 ==> value < 0x100)
    requires (width == 2 ==> value < 0x1_0000) && (width == 4 ==> value < 0x1_0000_0000)
    ensures ReadInt(BigEndian(value, width) + rest, width) == Ok(Taken(value, rest))
  {
    Widths();
    ReadUintOf(value, width, rest, ProtocolViolation);
  }

  lemma ReadBytesOf(part: Bytes, rest: Bytes)
    ensures ReadBytes(part + rest, |part|) == Ok(Taken(part, rest))
  {
  }

  lemma ReadTagOf(kind: nat, rest: Bytes)
    requires kind < 0x100
    ensures ReadTag(Tag(kind) + rest, kind) == Ok(Taken(Unit, rest))
  {
    hide ReadInt, BigEndian;
    ReadIntOf(kind, 1, BigEndian(AUTH_VERSION, 1) + rest);
    ReadIntOf(AUTH_VERSION, 1, rest);
    assert Tag(kind) + rest == BigEndian(kind, 1) + (BigEndian(AUTH_VERSION, 1) + rest);
  }

  lemma {:induction false} ReadLensOf(lens: seq<nat>, rest: Bytes)
    requires forall i :: 0 <= i < |lens| ==> 0 < lens[i] < 0x1_0000_0000
    ensures ReadLens(LenFields(lens) + rest, |lens|) == Ok(Taken(lens, rest))
  {
    hide ReadInt, BigEndian;
    if lens == [] {
      assert LenFields(lens) + rest == rest;
    } else {
      ReadLensOf(lens[1..], rest);
      ReadIntOf(lens[0], 4, LenFields(lens[1..]) + rest);
      assert LenFields(lens) + rest == BigEndian(lens[0], 4) + (LenFields(lens[1..]) + rest);
      assert [lens[0]] + lens[1..] == lens;
    }
  }

  lemma ReadCertLensOf(chain: seq<Bytes>, rest: Bytes)
    requires ChainOk(chain)
    ensures ReadCertLens(ChainHeader(chain) + rest) == Ok(Taken(LensOf(chain), rest))
  {
    hide ReadInt, BigEndian, LenFields, ReadLens;
    ReadLensOf(LensOf(chain), rest);
    ReadIntOf(|chain|, 2, LenFields(LensOf(chain)) + rest);
    assert ChainHeader(chain) + rest == BigEndian(|chain|, 2) + (LenFields(LensOf(chain)) + rest);
  }

  lemma {:induction false} ReadCertChainOf(chain: seq<Bytes>, rest: Bytes)
    ensures ReadCertChain(ChainBody(chain) + rest, LensOf(chain)) == Ok(Taken(chain, rest))
    decreases |chain|
  {
    hide ReadBytes;
    if chain == [] {
      assert ChainBody(chain) + rest == rest;
    } else {
      ReadCertChainOf(chain[1..], rest);
      ReadBytesOf(chain[0], ChainBody(chain[1..]) + rest);
      assert ChainBody(chain) + rest == chain[0] + (ChainBody(chain[1..]) + rest);
      assert LensOf(chain)[1..] == LensOf(chain[1..]) && [chain[0]] + chain[1..] == chain;
    }
  }

  function PartLensOf(p: Parts): PartLens {
    PartLens(|p.origin|, |p.dest|, LensOf(p.chain), |p.first|, |p.second|)
  }

  predicate LensFit(p: Parts, width: nat) {
    && |p.origin| < 0x1_0000 && |p.dest| < 0x1_0000 && ChainOk(p.chain) && |p.first| < 0x1_0000
    && width in {2, 4} && (width == 2 ==> |p.second| < 0x1_0000) && (width == 4 ==> |p.second| < 0x1_0000_0000)
  }

  lemma ReadPartLensOf(kind: nat, p: Parts, width: nat, rest: Bytes)
    requires LensFit(p, width) && kind < 0x100
    ensures ReadPartLens(LenLayout(kind, p, width) + rest, kind, width) == Ok(Taken(PartLensOf(p), rest))
  {
    hide ReadInt, BigEndian, ReadCertLens, ReadTag, ChainHeader, Tag, LensOf, ChainOk;
    var h5 := BigEndian(|p.second|, width) + rest;
    var h4 := BigEndian(|p.first|, 2) + h5;
    var h3 := ChainHeader(p.chain) + h4;
    var h2 := BigEndian(|p.dest|, 2) + h3;
    var h1 := BigEndian(|p.origin|, 2) + h2;
    assert LenLayout(kind, p, width) + rest == Tag(kind) + h1;
    ReadTagOf(kind, h1);
    ReadIntOf(|p.origin|, 2, h2);
    ReadIntOf(|p.dest|, 2, h3);
    ReadCertLensOf(p.chain, h4);
    ReadIntOf(|p.first|, 2, h5);
    ReadIntOf(|p.second|, width, rest);
  }

  lemma ReadPartsOf(p: Parts)
    ensures ReadParts(BodyLayout(p), PartLensOf(p)) == Ok(p)
  {
    hide ReadBytes, ReadCertChain, ChainBody, LensOf;
    var b5 := p.second + [];
    var b4 := p.first + b5;
    var b3 := ChainBody(p.chain) + b4;
    var b2 := p.dest + b3;
    ReadBytesOf(p.origin, b2);
    ReadBytesOf(p.dest, b3);
    ReadCertChainOf(p.chain, b4);
    ReadBytesOf(p.first, b5);
    ReadBytesOf(p.second, []);
  }

  lemma InitRoundTrip(m: AuthInit)
    requires InitOk(m)
    ensures ParseInit(InitLayout(m)) == Ok(m)
  {
    hide ReadPartLens, ReadParts, LenLayout, BodyLayout, LensOf, ChainOk;
    ReadPartLensOf(MSG_AUTH_INIT, InitParts(m), 2, BodyLayout(InitParts(m)));
    ReadPartsOf(InitParts(m));
  }

  lemma ChallengeRoundTrip(m: AuthChallenge)
    requires ChallengeOk(m)
    ensures ParseChallenge(ChallengeLayout(m)) == Ok(m)
  {
    hide ReadPartLens, ReadParts, LenLayout, BodyLayout, LensOf, ChainOk;
    ReadPartLensOf(MSG_AUTH_CHALLENGE, ChallengeParts(m), 4, BodyLayout(ChallengeParts(m)));
    ReadPartsOf(ChallengeParts(m));
  }

  lemma CallbackRoundTrip(m: CallbackInit)
    requires CallbackOk(m)
    ensures ParseCallback(CallbackLayout(m)) == Ok(m)
  {
    hide ReadInt, BigEndian, ReadBytes, ReadTag, Tag;
    var b4 := m.echoNonceACb + [];
    var b3 := m.nonceBCb + b4;
    var b2 := m.dest + b3;
    var b1 := m.origin + b2;
    var h4 := BigEndian(|m.echoNonceACb|, 2) + b1;
    var h3 := BigEndian(|m.nonceBCb|, 2) + h4;
    var h2 := BigEndian(|m.dest|, 2) + h3;
    var h1 := BigEndian(|m.origin|, 2) + h2;
    ReadTagOf(MSG_CALLBACK_INIT, h1);
    ReadIntOf(|m.origin|, 2, h2);
    ReadIntOf(|m.dest|, 2, h3);
    ReadIntOf(|m.nonceBCb|, 2, h4);
    ReadIntOf(|m.echoNonceACb|, 2, b1);
    ReadBytesOf(m.origin, b2);
    ReadBytesOf(m.dest, b3);
    ReadBytesOf(m.nonceBCb, b4);
    ReadBytesOf(m.echoNonceACb, []);
  }

  lemma ProofRoundTrip(m: AuthProof)
    requires ProofOk(m)
    ensures ParseProof(ProofLayout(m)) == Ok(m)
  {
    hide ReadInt, BigEndian, ReadBytes, ReadTag, Tag;
    var b2 := m.signature + [];
    var b1 := m.echoNonceBCb + b2;
    var h2 := BigEndian(|m.signature|, 4) + b1;
    var h1 := BigEndian(|m.echoNonceBCb|, 2) + h2;
    ReadTagOf(MSG_AUTH_PROOF, h1);
    ReadIntOf(|m.echoNonceBCb|, 2, h2);
    ReadIntOf(|m.signature|, 4, b1);
    ReadBytesOf(m.echoNonceBCb, b2);
    ReadBytesOf(m.signature, []);
  }

  // ---------------------------------------------------------------- whatever parses was written that way

  lemma ReadIntInverse(buf: Bytes, width: nat)
    requires ReadInt(buf, width).Ok? && width in {1, 2, 4}
    ensures var t := ReadInt(buf, width).value;
      buf == BigEndian(t.value, width) + t.rest && (width == 4 ==> t.value < 0x1_0000_0000)
  {
    Widths();
    ReadUintInverse(buf, width, ProtocolViolation);
  }

  lemma ReadBytesInverse(buf: Bytes, len: nat)
    requires ReadBytes(buf, len).Ok?
    ensures var t := ReadBytes(buf, len).value; buf == t.value + t.rest && |t.value| == len
  {
  }

  lemma ReadTagInverse(buf: Bytes, kind: nat)
    requires ReadTag(buf, kind).Ok?
    ensures buf == Tag(kind) + ReadTag(buf, kind).value.rest
  {
    hide ReadInt, BigEndian;
    ReadIntInverse(buf, 1);
    ReadIntInverse(ReadInt(buf, 1).value.rest, 1);
    var rest := ReadTag(buf, kind).value.rest;
    assert BigEndian(kind, 1) + (BigEndian(AUTH_VERSION, 1) + rest) == Tag(kind) + rest;
  }

  lemma {:induction false} ReadLensInverse(buf: Bytes, count: nat)
    requires ReadLens(buf, count).Ok?
    ensures var t := ReadLens(buf, count).value;
      && buf == LenFields(t.value) + t.rest && |t.value| == count
      && forall i :: 0 <= i < count ==> 0 < t.value[i] < 0x1_0000_0000
    decreases count
  {
    hide ReadInt, BigEndian;
    if count > 0 {
      var len := ReadInt(buf, 4).value;
      ReadIntInverse(buf, 4);
      ReadLensInverse(len.rest, count - 1);
      var more := ReadLens(len.rest, count - 1).value;
      assert ([len.value] + more.value)[1..] == more.value;
      assert BigEndian(len.value, 4) + (LenFields(more.value) + more.rest)
        == LenFields([len.value] + more.value) + more.rest;
    } else {
      assert LenFields([]) + buf == buf;
    }
  }

  lemma {:induction false} ReadCertChainInverse(buf: Bytes, lens: seq<nat>)
    requires ReadCertChain(buf, lens).Ok?
    ensures var t := ReadCertChain(buf, lens).value; buf == ChainBody(t.value) + t.rest && LensOf(t.value) == lens
    decreases lens
  {
    hide ReadBytes;
    if lens != [] {
      ReadBytesInverse(buf, lens[0]);
      var cert := ReadBytes(buf, lens[0]).value;
      ReadCertChainInverse(cert.rest, lens[1..]);
      var more := ReadCertChain(cert.rest, lens[1..]).value;
      assert ([cert.value] + more.value)[1..] == more.value;
      assert cert.value + (ChainBody(more.value) + more.rest) == ChainBody([cert.value] + more.value) + more.rest;
      assert forall i :: 0 < i < |lens| ==>
        LensOf([cert.value] + more.value)[i] == LensOf(more.value)[i - 1] == lens[1..][i - 1];
    } else {
      assert ChainBody([]) + buf == buf;
    }
  }

  /** The certificate part: the lengths read first are those of the certificates read later. */
  lemma ReadCertLensInverse(buf: Bytes, chain: seq<Bytes>)
    requires ReadCertLens(buf).Ok? && LensOf(chain) == ReadCertLens(buf).value.value
    ensures buf == ChainHeader(chain) + ReadCertLens(buf).value.rest && ChainOk(chain)
  {
    hide ReadInt, BigEndian, LenFields, ReadLens;
    var count := ReadInt(buf, 2).value;
    ReadIntInverse(buf, 2);
    ReadLensInverse(count.rest, count.value);
    var rest := ReadCertLens(buf).value.rest;
    assert BigEndian(count.value, 2) + (LenFields(LensOf(chain)) + rest) == ChainHeader(chain) + rest;
    forall i | 0 <= i < |chain| ensures 0 < |chain[i]| < 0x1_0000_0000 {
      assert LensOf(chain)[i] == |chain[i]|;
    }
  }

  lemma ReadPartsInverse(buf: Bytes, lens: PartLens)
    requires ReadParts(buf, lens).Ok?
    ensures BodyLayout(ReadParts(buf, lens).value) == buf && PartLensOf(ReadParts(buf, lens).value) == lens
  {
    hide ReadBytes, ReadCertChain, ChainBody, LensOf;
    var origin := ReadBytes(buf, lens.origin).value;
    ReadBytesInverse(buf, lens.origin);
    var dest := ReadBytes(origin.rest, lens.dest).value;
    ReadBytesInverse(origin.rest, lens.dest);
    var chain := ReadCertChain(dest.rest, lens.certs).value;
    ReadCertChainInverse(dest.rest, lens.certs);
    var first := ReadBytes(chain.rest, lens.first).value;
    ReadBytesInverse(chain.rest, lens.first);
    ReadBytesInverse(first.rest, lens.second);
  }

  lemma ReadPartLensInverse(buf: Bytes, kind: nat, width: nat, p: Parts)
    requires width in {2, 4} && ReadPartLens(buf, kind, width).Ok?
      && PartLensOf(p) == ReadPartLens(buf, kind, width).value.value
    ensures buf == LenLayout(kind, p, width) + ReadPartLens(buf, kind, width).value.rest && ChainOk(p.chain)
    ensures width == 4 ==> |p.second| < 0x1_0000_0000
  {
    hide ReadInt, BigEndian, ReadCertLens, ReadTag, ChainHeader, Tag, LensOf, ChainOk;
    var tag := ReadTag(buf, kind).value;
    ReadTagInverse(buf, kind);
    var origin := ReadInt(tag.rest, 2).value;
    ReadIntInverse(tag.rest, 2);
    var dest := ReadInt(origin.rest, 2).value;
    ReadIntInverse(origin.rest, 2);
    var certs := ReadCertLens(dest.rest).value;
    ReadCertLensInverse(dest.rest, p.chain);
    var first := ReadInt(certs.rest, 2).value;
    ReadIntInverse(certs.rest, 2);
    var second := ReadInt(first.rest, width).value;
    ReadIntInverse(first.rest, width);
    assert LenLayout(kind, p, width) + second.rest
      == Tag(kind) + (BigEndian(|p.origin|, 2) + (BigEndian(|p.dest|, 2) + (ChainHeader(p.chain)
           + (BigEndian(|p.first|, 2) + (BigEndian(|p.second|, width) + second.rest)))));
  }

  lemma InitCanonical(payload: Bytes)
    requires ParseInit(payload).Ok?
    ensures InitOk(ParseInit(payload).value) && InitLayout(ParseInit(payload).value) == payload
  {
    hide ReadPartLens, ReadParts, LenLayout, BodyLayout, LensOf, ChainOk;
    var lens := ReadPartLens(payload, MSG_AUTH_INIT, 2).value;
    ReadPartsInverse(lens.rest, lens.value);
    ReadPartLensInverse(payload, MSG_AUTH_INIT, 2, ReadParts(lens.rest, lens.value).value);
  }

  lemma ChallengeCanonical(payload: Bytes)
    requires ParseChallenge(payload).Ok?
    ensures ChallengeOk(ParseChallenge(payload).value) && ChallengeLayout(ParseChallenge(payload).value) == payload
  {
    hide ReadPartLens, ReadParts, LenLayout, BodyLayout, LensOf, ChainOk;
    var lens := ReadPartLens(payload, MSG_AUTH_CHALLENGE, 4).value;
    ReadPartsInverse(lens.rest, lens.value);
    ReadPartLensInverse(payload, MSG_AUTH_CHALLENGE, 4, ReadParts(lens.rest, lens.value).value);
  }

  lemma CallbackCanonical(payload: Bytes)
    requires ParseCallback(payload).Ok?
    ensures CallbackOk(ParseCallback(payload).value) && CallbackLayout(ParseCallback(payload).value) == payload
  {
    hide ReadInt, BigEndian, ReadBytes, ReadTag, Tag;
    var tag := ReadTag(payload, MSG_CALLBACK_INIT).value;
    ReadTagInverse(payload, MSG_CALLBACK_INIT);
    var originLen := ReadInt(tag.rest, 2).value;
    ReadIntInverse(tag.rest, 2);
    var destLen := ReadInt(originLen.rest, 2).value;
    ReadIntInverse(originLen.rest, 2);
    var nonceLen := ReadInt(destLen.rest, 2).value;
    ReadIntInverse(destLen.rest, 2);
    var echoLen := ReadInt(nonceLen.rest, 2).value;
    ReadIntInverse(nonceLen.rest, 2);
    var origin := ReadBytes(echoLen.rest, originLen.value).value;
    ReadBytesInverse(echoLen.rest, originLen.value);
    var dest := ReadBytes(origin.rest, destLen.value).value;
    ReadBytesInverse(origin.rest, destLen.value);
    var nonceBCb := ReadBytes(dest.rest, nonceLen.value).value;
    ReadBytesInverse(dest.rest, nonceLen.value);
    ReadBytesInverse(nonceBCb.rest, echoLen.value);
  }

  lemma ProofCanonical(payload: Bytes)
    requires ParseProof(payload).Ok?
    ensures ProofOk(ParseProof(payload).value) && ProofLayout(ParseProof(payload).value) == payload
  {
    hide ReadInt, BigEndian, ReadBytes, ReadTag, Tag;
    var tag := ReadTag(payload, MSG_AUTH_PROOF).value;
    ReadTagInverse(payload, MSG_AUTH_PROOF);
    var echoLen := ReadInt(tag.rest, 2).value;
    ReadIntInverse(tag.rest, 2);
    var signatureLen := ReadInt(echoLen.rest, 4).value;
    ReadIntInverse(echoLen.rest, 4);
    var echo := ReadBytes(signatureLen.rest, echoLen.value).value;
    ReadBytesInverse(signatureLen.rest, echoLen.value);
    ReadBytesInverse(echo.rest, signatureLen.value);
  }
}
