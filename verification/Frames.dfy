/**
 * gRPC wire framing (src/grpc/frames.ts): one flag byte, a 4-byte big-endian
 * length, the message (Length-Prefixed-Message of "gRPC over HTTP/2").
 */
module Frames {
  import opened Common

  datatype Frame = Frame(compressed: bool, message: Bytes)

  datatype FrameError = TruncatedHeader | TruncatedPayload | LengthOutOfRange

  const LIMIT := 0x1_0000_0000

  function Be32(n: nat): (b: Bytes)
    requires n < LIMIT
    ensures |b| == 4
  {
    [(n / 0x100_0000) as byte, (n / 0x1_0000 % 0x100) as byte, (n / 0x100 % 0x100) as byte, (n % 0x100) as byte]
  }

  function FromBe32(b: Bytes): nat
    requires |b| == 4
  {
    b[0] as nat * 0x100_0000 + b[1] as nat * 0x1_0000 + b[2] as nat * 0x100 + b[3] as nat
  }

  lemma Be32RoundTrip(n: nat)
    requires n < LIMIT
    ensures FromBe32(Be32(n)) == n
  {
  }

  lemma FromBe32RoundTrip(b: Bytes)
    requires |b| == 4
    ensures FromBe32(b) < LIMIT && Be32(FromBe32(b)) == b
  {
    var n := FromBe32(b);
    assert n / 0x100_0000 == b[0] as int;
    assert n / 0x1_0000 == b[0] as int * 0x100 + b[1] as int;
    assert n / 0x100 == b[0] as int * 0x1_0000 + b[1] as int * 0x100 + b[2] as int;
  }

  predicate Encodable(frame: Frame) {
    |frame.message| < LIMIT
  }

  function Encode(frame: Frame): Bytes
    requires Encodable(frame)
  {
    [if frame.compressed then 1 else 0] + Be32(|frame.message|) + frame.message
  }

  function EncodeAll(frames: seq<Frame>): Bytes
    requires forall i :: 0 <= i < |frames| ==> Encodable(frames[i])
  {
    if frames == [] then [] else Encode(frames[0]) + EncodeAll(frames[1..])
  }

  lemma {:induction false} EncodeAllAppend(frames: seq<Frame>, last: Frame)
    requires Encodable(last) && forall i :: 0 <= i < |frames| ==> Encodable(frames[i])
    ensures EncodeAll(frames + [last]) == EncodeAll(frames) + Encode(last)
    decreases |frames|
  {
    if frames == [] {
      assert [] + [last] == [last] && EncodeAll([last]) == Encode(last) + EncodeAll([]);
    } else {
      assert (frames + [last])[1..] == frames[1..] + [last];
      EncodeAllAppend(frames[1..], last);
    }
  }

  /** Fills a fresh buffer; a message too long for the length field throws. */
  method EncodeGrpcFrame(message: Bytes, compressed: bool) returns (r: Result<array<byte>, FrameError>)
    ensures r.Ok? <==> Encodable(Frame(compressed, message))
    ensures r.Ok? ==> fresh(r.value) && r.value[..] == Encode(Frame(compressed, message))
  {
    var frame := new byte[5 + |message|](_ => 0);
    frame[0] := if compressed then 1 else 0;
    if |message| >= LIMIT {
      return Err(LengthOutOfRange);
    }
    var n := |message|;
    frame[1] := (n / 0x100_0000) as byte;
    frame[2] := (n / 0x1_0000 % 0x100) as byte;
    frame[3] := (n / 0x100 % 0x100) as byte;
    frame[4] := (n % 0x100) as byte;
    for i := 0 to n
      invariant frame[..5] == [if compressed then 1 else 0] + Be32(n)
      invariant frame[5..5 + i] == message[..i]
    {
      frame[5 + i] := message[i];
    }
    assert frame[..] == frame[..5] + frame[5..5 + n];
    return Ok(frame);
  }

  // ---- decoding

  function PayloadLength(body: Bytes): nat
    requires |body| >= 5
  {
    FromBe32(body[1..5])
  }

  function Prepend(frame: Frame, r: Result<seq<Frame>, FrameError>): Result<seq<Frame>, FrameError> {
    match r
    case Ok(frames) => Ok([frame] + frames)
    case Err(e) => Err(e)
  }

  function Decode(body: Bytes): Result<seq<Frame>, FrameError>
    decreases |body|
  {
    if body == [] then Ok([])
    else if |body| < 5 then Err(TruncatedHeader)
    else if 5 + PayloadLength(body) > |body| then Err(TruncatedPayload)
    else
      var end := 5 + PayloadLength(body);
      Prepend(Frame(body[0] == 1, body[5..end]), Decode(body[end..]))
  }

  function Joined(frames: seq<Frame>, r: Result<seq<Frame>, FrameError>): Result<seq<Frame>, FrameError> {
    match r
    case Ok(more) => Ok(frames + more)
    case Err(e) => Err(e)
  }

  lemma JoinedPrepend(frames: seq<Frame>, frame: Frame, r: Result<seq<Frame>, FrameError>)
    ensures Joined(frames, Prepend(frame, r)) == Joined(frames + [frame], r)
    ensures Joined([], r) == r
  {
    if r.Ok? {
      assert frames + ([frame] + r.value) == frames + [frame] + r.value;
      assert [] + r.value == r.value;
    }
  }

  /** The loop over a fully buffered body. */
  method DecodeGrpcFrames(body: Bytes) returns (r: Result<seq<Frame>, FrameError>)
    ensures r == Decode(body)
  {
    var frames: seq<Frame> := [];
    var offset := 0;
    assert body[0..] == body;
    JoinedPrepend([], Frame(false, []), Decode(body));
    while offset < |body|
      invariant 0 <= offset <= |body|
      invariant Decode(body) == Joined(frames, Decode(body[offset..]))
    {
      ghost var rest := body[offset..];
      if offset + 5 > |body| {
        return Err(TruncatedHeader);
      }
      var compressed := body[offset] == 1;
      assert body[offset + 1..offset + 5] == rest[1..5];
      var length := FromBe32(body[offset + 1..offset + 5]);
      if offset + 5 + length > |body| {
        return Err(TruncatedPayload);
      }
      assert body[offset + 5..offset + 5 + length] == rest[5..5 + length];
      assert body[offset + 5 + length..] == rest[5 + length..];
      JoinedPrepend(frames, Frame(rest[0] == 1, rest[5..5 + length]), Decode(rest[5 + length..]));
      frames := frames + [Frame(compressed, body[offset + 5..offset + 5 + length])];
      offset := offset + 5 + length;
    }
    assert body[offset..] == [] && frames + [] == frames;
    return Ok(frames);
  }

  /** Decoding what was encoded gives the frames back. */
  lemma {:induction false} DecodeEncoded(frames: seq<Frame>)
    requires forall i :: 0 <= i < |frames| ==> Encodable(frames[i])
    ensures Decode(EncodeAll(frames)) == Ok(frames)
    decreases |frames|
  {
    if frames != [] {
      var first, rest := Encode(frames[0]), EncodeAll(frames[1..]);
      var body, n := EncodeAll(frames), |frames[0].message|;
      Be32RoundTrip(n);
      assert body[1..5] == Be32(n);
      assert body[5..5 + n] == frames[0].message;
      assert body[5 + n..] == rest;
      DecodeEncoded(frames[1..]);
      assert Frame(body[0] == 1, body[5..5 + n]) == frames[0];
      assert frames == [frames[0]] + frames[1..];
    }
  }

  /** Every flag byte of a decodable body is 0 or 1. */
  predicate PlainFlags(body: Bytes)
    decreases |body|
  {
    |body| < 5 || 5 + PayloadLength(body) > |body|
    || (body[0] <= 1 && PlainFlags(body[5 + PayloadLength(body)..]))
  }

  /** A decodable body is reproduced by encoding exactly when its flag bytes are 0 or 1. */
  lemma {:induction false} EncodeDecoded(body: Bytes)
    requires Decode(body).Ok?
    ensures var frames := Decode(body).value;
            && (forall i :: 0 <= i < |frames| ==> Encodable(frames[i]))
            && |EncodeAll(frames)| == |body|
            && (EncodeAll(frames) == body <==> PlainFlags(body))
    decreases |body|
  {
    if body != [] {
      var n := PayloadLength(body);
      var rest := body[5 + n..];
      EncodeDecoded(rest);
      FromBe32RoundTrip(body[1..5]);
      var frames := Decode(body).value;
      assert frames[1..] == Decode(rest).value;
      assert frames[0] == Frame(body[0] == 1, body[5..5 + n]);
      var flag: byte := if body[0] == 1 then 1 else 0;
      assert body == [body[0]] + body[1..5] + body[5..5 + n] + rest;
      var again := EncodeAll(frames);
      assert again == [flag] + body[1..5] + body[5..5 + n] + EncodeAll(frames[1..]);
      assert again[0] == flag && again[5 + n..] == EncodeAll(frames[1..]);
    }
  }

  // ---- where decoding fails

  /** A complete frame as it stands on the wire, whatever its flag byte. */
  predicate WholeFrame(part: Bytes) {
    |part| >= 5 && |part| == 5 + PayloadLength(part)
  }

  /** A frame that has begun and is not complete. */
  predicate PartialFrame(part: Bytes) {
    0 < |part| && (|part| < 5 || |part| < 5 + PayloadLength(part))
  }

  predicate WholeFrames(parts: seq<Bytes>) {
    forall i :: 0 <= i < |parts| ==> WholeFrame(parts[i])
  }

  /** Cuts a body into whole frames and what is left over. */
  function Cut(body: Bytes): (r: (seq<Bytes>, Bytes))
    decreases |body|
  {
    if |body| < 5 || 5 + PayloadLength(body) > |body| then ([], body)
    else
      var end := 5 + PayloadLength(body);
      var (parts, rest) := Cut(body[end..]);
      ([body[..end]] + parts, rest)
  }

  lemma {:induction false} CutCovers(body: Bytes)
    ensures var (parts, rest) := Cut(body);
            && body == Flatten(parts) + rest && WholeFrames(parts)
            && (rest == [] || PartialFrame(rest))
            && (Decode(body).Ok? <==> rest == [])
    decreases |body|
  {
    if |body| >= 5 && 5 + PayloadLength(body) <= |body| {
      var end := 5 + PayloadLength(body);
      CutCovers(body[end..]);
      var (parts, rest) := Cut(body);
      assert parts[1..] == Cut(body[end..]).0;
      assert body == body[..end] + body[end..];
      assert body[..end][1..5] == body[1..5];
    }
  }

  lemma {:induction false} CutUnique(parts: seq<Bytes>, rest: Bytes)
    requires WholeFrames(parts) && (rest == [] || PartialFrame(rest))
    ensures Cut(Flatten(parts) + rest) == (parts, rest)
    decreases |parts|
  {
    var body := Flatten(parts) + rest;
    if parts == [] {
      assert Flatten(parts) + rest == rest;
    } else {
      assert body == parts[0] + (Flatten(parts[1..]) + rest);
      assert body[1..5] == parts[0][1..5];
      assert body[..|parts[0]|] == parts[0];
      assert body[|parts[0]|..] == Flatten(parts[1..]) + rest;
      CutUnique(parts[1..], rest);
      assert parts == [parts[0]] + parts[1..];
    }
  }

  /** Decoding fails exactly on bodies that end inside a frame. */
  lemma FailsInsideFrame(body: Bytes)
    ensures Decode(body).Err? <==>
            exists parts, rest :: WholeFrames(parts) && PartialFrame(rest) && body == Flatten(parts) + rest
  {
    CutCovers(body);
    if exists parts, rest :: WholeFrames(parts) && PartialFrame(rest) && body == Flatten(parts) + rest {
      var parts, rest :| WholeFrames(parts) && PartialFrame(rest) && body == Flatten(parts) + rest;
      CutUnique(parts, rest);
    }
  }
}
