/** Error frames carry an error id and a text, cut to a maximum length without breaking a character. */
module ErrorPayloads {
  import opened Common
  import opened Wire

  const ERROR_MESSAGE_MAX_LEN: nat := 1024

  // ---------------------------------------------------------------- UTF-8, section 4 of RFC 3629

  predicate IsTail(b: Byte) {
    0x80 <= b <= 0xBF
  }

  /** The length of the well-formed character `s` starts with, or 0 if it starts with none. */
  function CharLen(s: Bytes): (n: nat)
    ensures n <= 4 && n <= |s|
    ensures forall i :: 0 < i < n ==> IsTail(s[i])
    ensures 0 < n ==> !IsTail(s[0])
  {
    if s == [] then 0
    else if s[0] <= 0x7F then 1
    else if 0xC2 <= s[0] <= 0xDF then
      if |s| >= 2 && IsTail(s[1]) then 2 else 0
    else if 0xE0 <= s[0] <= 0xEF then
      if |s| >= 3 && SecondFits(s[0], s[1]) && IsTail(s[2]) then 3 else 0
    else if 0xF0 <= s[0] <= 0xF4 then
      if |s| >= 4 && SecondFits(s[0], s[1]) && IsTail(s[2]) && IsTail(s[3]) then 4 else 0
    else 0
  }

  /** The second byte is restricted where the first alone would allow overlong forms, surrogates or too large values. */
  predicate SecondFits(first: Byte, second: Byte) {
    && IsTail(second)
    && (first == 0xE0 ==> 0xA0 <= second)
    && (first == 0xED ==> second <= 0x9F)
    && (first == 0xF0 ==> 0x90 <= second)
    && (first == 0xF4 ==> second <= 0x8F)
  }

  predicate ValidUtf8(s: Bytes)
    decreases |s|
  {
    s == [] || (CharLen(s) > 0 && ValidUtf8(s[CharLen(s)..]))
  }

  /** The numbers that stand for characters: all but the surrogates. */
  predicate IsScalar(c: nat) {
    c < 0x11_0000 && !(0xD800 <= c < 0xE000)
  }

  /** The bytes of one character. */
  function EncodeChar(c: nat): (bytes: Bytes)
    requires IsScalar(c)
    ensures 1 <= |bytes| <= 4
  {
    if c < 0x80 then [c]
    else if c < 0x800 then [0xC0 + c / 0x40, 0x80 + c % 0x40]
    else if c < 0x1_0000 then [0xE0 + c / 0x1000, 0x80 + c / 0x40 % 0x40, 0x80 + c % 0x40]
    else [0xF0 + c / 0x4_0000, 0x80 + c / 0x1000 % 0x40, 0x80 + c / 0x40 % 0x40, 0x80 + c % 0x40]
  }

  /** A text starts with a character if and only if it starts with the bytes of one. */
  lemma CharEncoded(c: nat, rest: Bytes)
    requires IsScalar(c)
    ensures CharLen(EncodeChar(c) + rest) == |EncodeChar(c)|
  {
    var s := EncodeChar(c) + rest;
    if c < 0x80 {
    } else if c < 0x800 {
      TwoEncoded(c, s);
    } else if c < 0x1_0000 {
      ThreeEncoded(c, s);
    } else {
      FourEncoded(c, s);
    }
  }

  lemma TwoEncoded(c: nat, s: Bytes)
    requires 0x80 <= c < 0x800 && |s| >= 2 && s[0] == 0xC0 + c / 0x40 && s[1] == 0x80 + c % 0x40
    ensures CharLen(s) == 2
  {
  }

  lemma ThreeEncoded(c: nat, s: Bytes)
    requires 0x800 <= c < 0x1_0000 && IsScalar(c) && |s| >= 3
    requires s[0] == 0xE0 + c / 0x1000 && s[1] == 0x80 + c / 0x40 % 0x40 && s[2] == 0x80 + c % 0x40
    ensures CharLen(s) == 3
  {
  }

  lemma FourEncoded(c: nat, s: Bytes)
    requires 0x1_0000 <= c < 0x11_0000 && |s| >= 4 && s[0] == 0xF0 + c / 0x4_0000
    requires s[1] == 0x80 + c / 0x1000 % 0x40 && s[2] == 0x80 + c / 0x40 % 0x40 && s[3] == 0x80 + c % 0x40
    ensures CharLen(s) == 4
  {
  }

  /** Splitting off the last six bits. */
  lemma LastSixBits(high: nat, low: nat)
    requires low < 0x40
    ensures (high * 0x40 + low) / 0x40 == high && (high * 0x40 + low) % 0x40 == low
  {
  }

  lemma SixBitsTwice(c: nat)
    ensures c / 0x40 / 0x40 == c / 0x1000 && c / 0x1000 / 0x40 == c / 0x4_0000
  {
  }

  lemma DecodedThree(s: Bytes) returns (c: nat)
    requires CharLen(s) == 3
    ensures IsScalar(c) && s[..3] == EncodeChar(c)
  {
    var high: nat, middle: nat, low: nat := s[0] - 0xE0, s[1] - 0x80, s[2] - 0x80;
    var upper := high * 0x40 + middle;
    c := upper * 0x40 + low;
    LastSixBits(high, middle);
    LastSixBits(upper, low);
    SixBitsTwice(c);
    assert s[..3] == [s[0], s[1], s[2]];
  }

  lemma DecodedFour(s: Bytes) returns (c: nat)
    requires CharLen(s) == 4
    ensures IsScalar(c) && s[..4] == EncodeChar(c)
  {
    var high: nat, second: nat, third: nat, low: nat := s[0] - 0xF0, s[1] - 0x80, s[2] - 0x80, s[3] - 0x80;
    var top := high * 0x40 + second;
    var upper := top * 0x40 + third;
    c := upper * 0x40 + low;
    LastSixBits(high, second);
    LastSixBits(top, third);
    LastSixBits(upper, low);
    SixBitsTwice(c);
    assert s[..4] == [s[0], s[1], s[2], s[3]];
  }

  lemma CharDecoded(s: Bytes) returns (c: nat)
    requires CharLen(s) > 0
    ensures IsScalar(c) && s[..CharLen(s)] == EncodeChar(c)
  {
    var n := CharLen(s);
    if n == 1 {
      c := s[0];
    } else if n == 2 {
      var high: nat, low: nat := s[0] - 0xC0, s[1] - 0x80;
      c := high * 0x40 + low;
      LastSixBits(high, low);
    } else if n == 3 {
      c := DecodedThree(s);
    } else {
      c := DecodedFour(s);
    }
  }

  predicate AreScalars(cs: seq<nat>) {
    forall i :: 0 <= i < |cs| ==> IsScalar(cs[i])
  }

  function EncodeText(cs: seq<nat>): Bytes
    requires AreScalars(cs)
  {
    if cs == [] then [] else EncodeChar(cs[0]) + EncodeText(cs[1..])
  }

  lemma {:induction false} EncodedIsValid(cs: seq<nat>)
    requires AreScalars(cs)
    ensures ValidUtf8(EncodeText(cs))
  {
    hide CharLen, EncodeChar;
    if cs == [] {
    } else {
      var s := EncodeText(cs);
      CharEncoded(cs[0], EncodeText(cs[1..]));
      EncodedIsValid(cs[1..]);
      assert s[|EncodeChar(cs[0])|..] == EncodeText(cs[1..]);
    }
  }

  lemma {:induction false} ValidIsEncoded(s: Bytes) returns (cs: seq<nat>)
    requires ValidUtf8(s)
    ensures AreScalars(cs) && EncodeText(cs) == s
    decreases |s|
  {
    hide CharLen, EncodeChar;
    if s == [] {
      cs := [];
    } else {
      var c := CharDecoded(s);
      var rest := ValidIsEncoded(s[CharLen(s)..]);
      cs := [c] + rest;
      assert cs[1..] == rest && s == s[..CharLen(s)] + s[CharLen(s)..];
    }
  }

  /** Bytes are a valid text if and only if they are the characters of one, one after the other. */
  lemma ValidIff(s: Bytes)
    ensures ValidUtf8(s) <==> exists cs :: AreScalars(cs) && EncodeText(cs) == s
  {
    hide ValidUtf8, EncodeText, AreScalars;
    if ValidUtf8(s) {
      var cs := ValidIsEncoded(s);
    }
    forall cs | AreScalars(cs) && EncodeText(cs) == s ensures ValidUtf8(s) {
      EncodedIsValid(cs);
    }
  }

  predicate IsCharBoundary(s: Bytes, i: nat) {
    i == 0 || i == |s| || (i < |s| && !IsTail(s[i]))
  }

  lemma CharLenPrefix(s: Bytes, i: nat)
    requires CharLen(s) <= i <= |s| && 0 < CharLen(s)
    ensures CharLen(s[..i]) == CharLen(s)
  {
  }

  /** Text may be cut at any character boundary. */
  lemma {:induction false} CutAtBoundary(s: Bytes, i: nat)
    requires ValidUtf8(s) && i <= |s| && IsCharBoundary(s, i)
    ensures ValidUtf8(s[..i])
    decreases |s|
  {
    if i == 0 {
    } else {
      var n := CharLen(s);
      assert n <= i;
      CutAtBoundary(s[n..], i - n);
      CharLenPrefix(s, i);
      assert s[..i][n..] == s[n..][..i - n];
    }
  }

  /** Going back at most three bytes from anywhere in a text reaches a character boundary. */
  lemma {:induction false} BoundaryNearby(s: Bytes, i: nat) returns (j: nat)
    requires ValidUtf8(s) && i <= |s|
    ensures i - 3 <= j <= i && IsCharBoundary(s, j)
    decreases |s|
  {
    var n := CharLen(s);
    if i < n || s == [] {
      j := 0;
    } else {
      var k := BoundaryNearby(s[n..], i - n);
      j := if k == 0 then n else k + n;
      NextCharStarts(s);
    }
  }

  lemma NextCharStarts(s: Bytes)
    requires ValidUtf8(s) && s != []
    ensures IsCharBoundary(s, CharLen(s))
  {
    var rest := s[CharLen(s)..];
    if rest != [] {
      assert rest[0] == s[CharLen(s)];
    }
  }

  // ---------------------------------------------------------------- the payload

  /** The text of a message is valid UTF-8 by its type. */
  datatype ErrorPayload = ErrorPayload(errorId: U32, message: Bytes)

  /**
   * The longest prefix of at most 1024 bytes that ends at a character boundary: all of a short text,
   * and of a long one at most three bytes less than the limit.
   */
  method NewErrorPayload(errorId: U32, message: Bytes) returns (p: ErrorPayload)
    requires ValidUtf8(message)
    ensures p.errorId == errorId && p.message <= message && ValidUtf8(p.message)
    ensures |message| <= 1024 ==> p.message == message
    ensures |message| > 1024 ==> 1021 <= |p.message| <= 1024
    ensures forall i :: |p.message| < i <= |message| && i <= 1024 ==> !IsCharBoundary(message, i)
  {
    if |message| <= ERROR_MESSAGE_MAX_LEN {
      return ErrorPayload(errorId, message);
    }
    var idx := ERROR_MESSAGE_MAX_LEN;
    var j := BoundaryNearby(message, idx);
    while idx > 0 && !IsCharBoundary(message, idx)
      invariant j <= idx <= ERROR_MESSAGE_MAX_LEN
      invariant forall i :: idx < i <= ERROR_MESSAGE_MAX_LEN ==> !IsCharBoundary(message, i)
    {
      idx := idx - 1;
    }
    CutAtBoundary(message, idx);
    p := ErrorPayload(errorId, message[..idx]);
  }

  function EncodeError(p: ErrorPayload): Bytes {
    BigEndian(p.errorId, 4) + p.message
  }

  function DecodeError(buf: Bytes): Result<ErrorPayload, ErrorId> {
    if |buf| < 4 then Err(DecodeFailure)
    else
      FieldsFit();
      var errorId := ReadUint(buf, 4, DecodeFailure).value;
      if !ValidUtf8(errorId.rest) then Err(DecodeFailure)
      else Ok(ErrorPayload(errorId.value, errorId.rest))
  }

  lemma ErrorRoundTrip(p: ErrorPayload)
    ensures DecodeError(EncodeError(p)) == if ValidUtf8(p.message) then Ok(p) else Err(DecodeFailure)
  {
    hide ValidUtf8;
    Widths();
    ReadUintOf(p.errorId, 4, p.message, DecodeFailure);
  }

  lemma ErrorCanonical(buf: Bytes)
    requires DecodeError(buf).Ok?
    ensures EncodeError(DecodeError(buf).value) == buf && ValidUtf8(DecodeError(buf).value.message)
  {
    hide ValidUtf8;
    ReadUintInverse(buf, 4, DecodeFailure);
  }

  /** An error text of any length arrives as the cut text. */
  method SendError(errorId: U32, message: Bytes) returns (bytes: Bytes, received: Result<ErrorPayload, ErrorId>)
    requires ValidUtf8(message)
    ensures received.Ok? && received.value.errorId == errorId && received.value.message <= message
    ensures |bytes| <= 4 + 1024 && bytes == EncodeError(received.value)
    ensures |message| <= 1024 ==> received.value.message == message
    ensures |message| > 1024 ==> |received.value.message| >= 1021
  {
    hide ValidUtf8;
    var p := NewErrorPayload(errorId, message);
    bytes := EncodeError(p);
    received := DecodeError(bytes);
    ErrorRoundTrip(p);
  }
}
