/** The authentication messages as they are built and taken apart: a growing buffer and a cursor. */
module AuthMessages {
  import opened Common
  import opened Wire
  import opened AuthCodec

  // ---------------------------------------------------------------- the cursor

  /** What a read returns, and where it leaves the cursor. A failed read may leave it anywhere. */
  ghost predicate ReadsAs<T>(spec: Result<Taken<T>, ErrorId>, r: Result<T, ErrorId>, rest: Bytes) {
    match spec
    case Err(error) => r == Err(error)
    case Ok(taken) => r == Ok(taken.value) && rest == taken.rest
  }

  class Cursor {
    const data: Bytes
    var pos: nat

    ghost predicate Valid()
      reads this
    {
      pos <= |data|
    }

    ghost function Rest(): Bytes
      requires Valid()
      reads this
    {
      data[pos..]
    }

    constructor (data: Bytes)
      ensures Valid() && this.data == data && Rest() == data
    {
      this.data, pos := data, 0;
    }

    method TakeInt(width: nat) returns (r: Result<nat, ErrorId>)
      requires Valid()
      modifies this
      ensures Valid() && ReadsAs(ReadInt(old(Rest()), width), r, Rest())
    {
      if pos + width > |data| {
        return Err(ProtocolViolation);
      }
      var value := FromBigEndian(data[pos..pos + width]);
      assert Rest()[..width] == data[pos..pos + width] && Rest()[width..] == data[pos + width..];
      pos := pos + width;
      return Ok(value);
    }

    method TakeBytes(len: nat) returns (r: Result<Bytes, ErrorId>)
      requires Valid()
      modifies this
      ensures Valid() && ReadsAs(ReadBytes(old(Rest()), len), r, Rest())
    {
      if pos + len > |data| {
        return Err(ProtocolViolation);
      }
      var value := data[pos..pos + len];
      assert Rest()[..len] == value && Rest()[len..] == data[pos + len..];
      pos := pos + len;
      return Ok(value);
    }

    method TakeTag(kind: nat) returns (r: Result<Unit, ErrorId>)
      requires Valid()
      modifies this
      ensures Valid() && ReadsAs(ReadTag(old(Rest()), kind), r, Rest())
    {
      hide ReadInt;
      var msgType :- TakeInt(1);
      var version :- TakeInt(1);
      if msgType != kind || version != AUTH_VERSION {
        return Err(ProtocolViolation);
      }
      return Ok(Unit);
    }

    method TakeCertLens() returns (r: Result<seq<nat>, ErrorId>)
      requires Valid()
      modifies this
      ensures Valid() && ReadsAs(ReadCertLens(old(Rest())), r, Rest())
    {
      hide ReadInt;
      var count :- TakeInt(2);
      if count == 0 || count > MAX_CERT_CHAIN_LEN {
        return Err(ProtocolViolation);
      }
      ghost var start := Rest();
      var lens: seq<nat> := [];
      NothingPrepended(ReadLens(start, count));
      for i := 0 to count
        invariant Valid() && Prepended(lens, ReadLens(Rest(), count - i)) == ReadLens(start, count)
      {
        var len :- TakeInt(4);
        if len == 0 {
          return Err(ProtocolViolation);
        }
        PrependedTwice(lens, len, ReadLens(Rest(), count - i - 1));
        lens := lens + [len];
      }
      assert lens + [] == lens;
      return Ok(lens);
    }

    method TakeCertChain(lens: seq<nat>) returns (r: Result<seq<Bytes>, ErrorId>)
      requires Valid()
      modifies this
      ensures Valid() && ReadsAs(ReadCertChain(old(Rest()), lens), r, Rest())
    {
      hide ReadBytes;
      ghost var start := Rest();
      var chain: seq<Bytes> := [];
      NothingPrepended(ReadCertChain(start, lens));
      assert lens[0..] == lens;
      for i := 0 to |lens|
        invariant Valid() && Prepended(chain, ReadCertChain(Rest(), lens[i..])) == ReadCertChain(start, lens)
      {
        assert lens[i..][0] == lens[i] && lens[i..][1..] == lens[i + 1..];
        var cert :- TakeBytes(lens[i]);
        PrependedTwice(chain, cert, ReadCertChain(Rest(), lens[i + 1..]));
        chain := chain + [cert];
      }
      assert chain + [] == chain;
      return Ok(chain);
    }

    method TakePartLens(kind: nat, width: nat) returns (r: Result<PartLens, ErrorId>)
      requires Valid()
      modifies this
      ensures Valid() && ReadsAs(ReadPartLens(old(Rest()), kind, width), r, Rest())
    {
      hide ReadInt, ReadCertLens, ReadTag;
      var _ :- TakeTag(kind);
      var origin :- TakeInt(2);
      var dest :- TakeInt(2);
      var certs :- TakeCertLens();
      var first :- TakeInt(2);
      var second :- TakeInt(width);
      return Ok(PartLens(origin, dest, certs, first, second));
    }

    method TakeParts(lens: PartLens) returns (r: Result<Parts, ErrorId>)
      requires Valid()
      modifies this
      ensures Valid() && r == ReadParts(old(Rest()), lens)
    {
      hide ReadBytes, ReadCertChain;
      var origin :- TakeBytes(lens.origin);
      var dest :- TakeBytes(lens.dest);
      var chain :- TakeCertChain(lens.certs);
      var first :- TakeBytes(lens.first);
      var second :- TakeBytes(lens.second);
      var left := HasRemaining();
      if left {
        return Err(ProtocolViolation);
      }
      return Ok(Parts(origin, dest, chain, first, second));
    }

    method HasRemaining() returns (b: bool)
      requires Valid()
      ensures b == (Rest() != [])
    {
      return pos != |data|;
    }
  }

  ghost function Prepended<T>(front: seq<T>, r: Result<Taken<seq<T>>, ErrorId>): Result<Taken<seq<T>>, ErrorId> {
    if r.Ok? then Ok(Taken(front + r.value.value, r.value.rest)) else r
  }

  lemma NothingPrepended<T>(r: Result<Taken<seq<T>>, ErrorId>)
    ensures Prepended([], r) == r
  {
    if r.Ok? {
      assert [] + r.value.value == r.value.value;
    }
  }

  lemma PrependedTwice<T>(front: seq<T>, x: T, r: Result<Taken<seq<T>>, ErrorId>)
    ensures Prepended(front, Prepended([x], r)) == Prepended(front + [x], r)
  {
    if r.Ok? {
      assert front + ([x] + r.value.value) == front + [x] + r.value.value;
    }
  }

  // ---------------------------------------------------------------- parsing

  method ParseAuthInit(payload: Bytes) returns (r: Result<AuthInit, ErrorId>)
    ensures r == ParseInit(payload)
  {
    hide ReadPartLens, ReadParts;
    var cursor := new Cursor(payload);
    var lens :- cursor.TakePartLens(MSG_AUTH_INIT, 2);
    if !PathLensOk(lens.origin, lens.dest) || lens.first != NONCE_LEN || lens.second != NONCE_LEN {
      return Err(ProtocolViolation);
    }
    var p :- cursor.TakeParts(lens);
    return Ok(AuthInit(p.origin, p.dest, p.chain, p.first, p.second));
  }

  method ParseCallbackInit(payload: Bytes) returns (r: Result<CallbackInit, ErrorId>)
    ensures r == ParseCallback(payload)
  {
    hide ReadInt, ReadBytes, ReadTag;
    var cursor := new Cursor(payload);
    var _ :- cursor.TakeTag(MSG_CALLBACK_INIT);
    var originLen :- cursor.TakeInt(2);
    var destLen :- cursor.TakeInt(2);
    var nonceLen :- cursor.TakeInt(2);
    var echoLen :- cursor.TakeInt(2);
    if !PathLensOk(originLen, destLen) || nonceLen != NONCE_LEN || echoLen != NONCE_LEN {
      return Err(ProtocolViolation);
    }
    var origin :- cursor.TakeBytes(originLen);
    var dest :- cursor.TakeBytes(destLen);
    var nonceBCb :- cursor.TakeBytes(nonceLen);
    var echoNonceACb :- cursor.TakeBytes(echoLen);
    var left := cursor.HasRemaining();
    if left {
      return Err(ProtocolViolation);
    }
    return Ok(CallbackInit(origin, dest, nonceBCb, echoNonceACb));
  }

  method ParseAuthChallenge(payload: Bytes) returns (r: Result<AuthChallenge, ErrorId>)
    ensures r == ParseChallenge(payload)
  {
    hide ReadPartLens, ReadParts;
    var cursor := new Cursor(payload);
    var lens :- cursor.TakePartLens(MSG_AUTH_CHALLENGE, 4);
    if !PathLensOk(lens.origin, lens.dest) || lens.first != NONCE_LEN {
      return Err(ProtocolViolation);
    }
    var p :- cursor.TakeParts(lens);
    return Ok(AuthChallenge(p.origin, p.dest, p.chain, p.first, p.second));
  }

  method ParseAuthProof(payload: Bytes) returns (r: Result<AuthProof, ErrorId>)
    ensures r == ParseProof(payload)
  {
    hide ReadInt, ReadBytes, ReadTag;
    var cursor := new Cursor(payload);
    var _ :- cursor.TakeTag(MSG_AUTH_PROOF);
    var echoLen :- cursor.TakeInt(2);
    var signatureLen :- cursor.TakeInt(4);
    if echoLen != NONCE_LEN {
      return Err(ProtocolViolation);
    }
    var echoNonceBCb :- cursor.TakeBytes(echoLen);
    var signature :- cursor.TakeBytes(signatureLen);
    var left := cursor.HasRemaining();
    if left {
      return Err(ProtocolViolation);
    }
    return Ok(AuthProof(echoNonceBCb, signature));
  }

  // ---------------------------------------------------------------- building

  function CheckPath(path: Bytes): (r: Result<Bytes, ErrorId>)
    ensures r == if PathOk(path) then Ok(path) else Err(ProtocolViolation)
  {
    if path == [] || |path| > PATH_MAX_LEN || |path| > 0xFFFF then Err(ProtocolViolation) else Ok(path)
  }

  lemma {:induction false} LenFieldsAppend(lens: seq<nat>, len: nat)
    ensures LenFields(lens + [len]) == LenFields(lens) + BigEndian(len, 4)
  {
    if lens == [] {
      assert lens + [len] == [len];
    } else {
      assert (lens + [len])[1..] == lens[1..] + [len];
      LenFieldsAppend(lens[1..], len);
    }
  }

  lemma {:induction false} ChainBodyAppend(chain: seq<Bytes>, cert: Bytes)
    ensures ChainBody(chain + [cert]) == ChainBody(chain) + cert
  {
    if chain == [] {
      assert chain + [cert] == [cert];
    } else {
      assert (chain + [cert])[1..] == chain[1..] + [cert];
      ChainBodyAppend(chain[1..], cert);
    }
  }

  method PutChainHeader(buf: Bytes, chain: seq<Bytes>) returns (r: Result<Bytes, ErrorId>)
    ensures r == if ChainOk(chain) then Ok(buf + ChainHeader(chain)) else Err(ProtocolViolation)
  {
    hide BigEndian, LenFields;
    if chain == [] || |chain| > MAX_CERT_CHAIN_LEN {
      return Err(ProtocolViolation);
    }
    var out := buf + BigEndian(|chain|, 2);
    NoLenFields();
    for i := 0 to |chain|
      invariant out == buf + BigEndian(|chain|, 2) + LenFields(LensOf(chain)[..i])
      invariant forall k :: 0 <= k < i ==> 0 < |chain[k]| < 0x1_0000_0000
    {
      if chain[i] == [] {
        return Err(ProtocolViolation);
      }
      var len :- WirePayloadLen(|chain[i]|);
      LenFieldsAppend(LensOf(chain)[..i], len);
      assert LensOf(chain)[..i + 1] == LensOf(chain)[..i] + [len];
      out := out + BigEndian(len, 4);
    }
    assert LensOf(chain)[..|chain|] == LensOf(chain);
    assert out == buf + ChainHeader(chain);
    return Ok(out);
  }

  lemma NoLenFields()
    ensures LenFields([]) == []
  {
  }

  method PutChainBody(buf: Bytes, chain: seq<Bytes>) returns (out: Bytes)
    ensures out == buf + ChainBody(chain)
  {
    out := buf;
    for i := 0 to |chain|
      invariant out == buf + ChainBody(chain[..i])
    {
      ChainBodyAppend(chain[..i], chain[i]);
      assert chain[..i + 1] == chain[..i] + [chain[i]];
      out := out + chain[i];
    }
    assert chain[..|chain|] == chain;
  }

  method EncodeAuthInit(m: AuthInit) returns (r: Result<Bytes, ErrorId>)
    ensures r == if InitOk(m) then Ok(InitLayout(m)) else Err(ProtocolViolation)
  {
    hide BigEndian, ChainHeader, ChainBody, ChainOk;
    if |m.nonceA| != NONCE_LEN || |m.nonceACb| != NONCE_LEN {
      return Err(ProtocolViolation);
    }
    var origin :- CheckPath(m.origin);
    var dest :- CheckPath(m.dest);
    var buf := BigEndian(MSG_AUTH_INIT, 1) + BigEndian(AUTH_VERSION, 1);
    buf := buf + BigEndian(|origin|, 2);
    buf := buf + BigEndian(|dest|, 2);
    buf :- PutChainHeader(buf, m.chain);
    buf := buf + BigEndian(|m.nonceA|, 2);
    buf := buf + BigEndian(|m.nonceACb|, 2);
    buf := buf + origin;
    buf := buf + dest;
    buf := PutChainBody(buf, m.chain);
    buf := buf + m.nonceA;
    buf := buf + m.nonceACb;
    assert buf == InitLayout(m);
    return Ok(buf);
  }

  method EncodeCallbackInit(m: CallbackInit) returns (r: Result<Bytes, ErrorId>)
    ensures r == if CallbackOk(m) then Ok(CallbackLayout(m)) else Err(ProtocolViolation)
  {
    hide BigEndian;
    if |m.nonceBCb| != NONCE_LEN || |m.echoNonceACb| != NONCE_LEN {
      return Err(ProtocolViolation);
    }
    var origin :- CheckPath(m.origin);
    var dest :- CheckPath(m.dest);
    var buf := BigEndian(MSG_CALLBACK_INIT, 1) + BigEndian(AUTH_VERSION, 1);
    buf := buf + BigEndian(|origin|, 2);
    buf := buf + BigEndian(|dest|, 2);
    buf := buf + BigEndian(|m.nonceBCb|, 2);
    buf := buf + BigEndian(|m.echoNonceACb|, 2);
    buf := buf + origin;
    buf := buf + dest;
    buf := buf + m.nonceBCb;
    buf := buf + m.echoNonceACb;
    assert buf == CallbackLayout(m);
    return Ok(buf);
  }

  method EncodeAuthChallenge(m: AuthChallenge) returns (r: Result<Bytes, ErrorId>)
    ensures r == if ChallengeOk(m) then Ok(ChallengeLayout(m)) else Err(ProtocolViolation)
  {
    hide BigEndian, ChainHeader, ChainBody, ChainOk;
    if |m.nonceB| != NONCE_LEN {
      return Err(ProtocolViolation);
    }
    var origin :- CheckPath(m.origin);
    var dest :- CheckPath(m.dest);
    var buf := BigEndian(MSG_AUTH_CHALLENGE, 1) + BigEndian(AUTH_VERSION, 1);
    buf := buf + BigEndian(|origin|, 2);
    buf := buf + BigEndian(|dest|, 2);
    buf :- PutChainHeader(buf, m.chain);
    buf := buf + BigEndian(|m.nonceB|, 2);
    var signatureLen :- WirePayloadLen(|m.signature|);
    buf := buf + BigEndian(signatureLen, 4);
    buf := buf + origin;
    buf := buf + dest;
    buf := PutChainBody(buf, m.chain);
    buf := buf + m.nonceB;
    buf := buf + m.signature;
    assert buf == ChallengeLayout(m);
    return Ok(buf);
  }

  method EncodeAuthProof(m: AuthProof) returns (r: Result<Bytes, ErrorId>)
    ensures r == if ProofOk(m) then Ok(ProofLayout(m)) else Err(ProtocolViolation)
  {
    hide BigEndian;
    if |m.echoNonceBCb| != NONCE_LEN {
      return Err(ProtocolViolation);
    }
    var buf := BigEndian(MSG_AUTH_PROOF, 1) + BigEndian(AUTH_VERSION, 1);
    buf := buf + BigEndian(|m.echoNonceBCb|, 2);
    var signatureLen :- WirePayloadLen(|m.signature|);
    buf := buf + BigEndian(signatureLen, 4);
    buf := buf + m.echoNonceBCb;
    buf := buf + m.signature;
    assert buf == ProofLayout(m);
    return Ok(buf);
  }
}
