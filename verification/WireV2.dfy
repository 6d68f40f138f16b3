/** Wire v2 frames: frame type, flags, length, payload; a message frame's payload starts with
    the number of its message type. */
module WireV2 {
  import opened Bytes
  import opened Messages
  import opened Streams

  const HEADER_SIZE: nat := 8
  const TYPE_ID_SIZE: nat := 2
  const DEFAULT_LIMIT: nat := 65536

  const CLIENT_HELLO: nat := 1
  const SERVER_HELLO: nat := 2
  const MESSAGE: nat := 16

  const MAGIC: bytes := [0x46, 0x52, 0x50, 0x00, 0x02, 0x0d, 0x0a]

  /** A hello carries its payload as it is; a message carries a type and a JSON body. */
  datatype Frame = Hello(frameType: nat, payload: bytes) | Message(messageType: MessageType, body: bytes)

  predicate Defined(frameType: nat) {
    frameType == CLIENT_HELLO || frameType == SERVER_HELLO || frameType == MESSAGE
  }

  function EncodeFrame(frameType: nat, payload: bytes, limit: int): Result<bytes> {
    if !Defined(frameType) then Err(Protocol(FrameTypeInvalid))
    else match CheckLength(|payload|, limit)
    case Some(e) => Err(e)
    case None => Ok(BigEndian(frameType, 2) + BigEndian(0, 2) + BigEndian(|payload|, 4) + payload)
  }

  function EncodeMessage(messageType: MessageType, body: bytes, isObject: bytes -> bool): Result<bytes> {
    if ByV2Id(messageType.v2Id).None? then Err(Protocol(TypeInvalid))
    else match CheckJson(body, isObject)
    case Some(e) => Err(e)
    case None => EncodeFrame(MESSAGE, BigEndian(messageType.v2Id, TYPE_ID_SIZE) + body, DEFAULT_LIMIT)
  }

  function DecodeHeader(header: bytes, limit: int): (r: Result<(nat, nat)>)
    requires |header| == HEADER_SIZE
    ensures r.Ok? ==> Defined(r.value.0) && r.value.1 <= limit
    ensures r.Err? ==> r.error != Protocol(PayloadTruncated)
  {
    var frameType := Value(header[0..2]);
    if !Defined(frameType) then Err(Protocol(FrameTypeInvalid))
    else if Value(header[2..4]) != 0 then Err(Protocol(FlagsUnsupported))
    else
      var declared := Value(header[4..]);
      match CheckLength(declared, limit)
      case Some(e) => Err(e)
      case None => Ok((frameType, declared))
  }

  function DecodeMessage(payload: bytes, isObject: bytes -> bool): Result<Frame> {
    if |payload| < TYPE_ID_SIZE then Err(Protocol(TypeInvalid)) else
    match ByV2Id(Value(payload[..TYPE_ID_SIZE]))
    case None => Err(Protocol(TypeInvalid))
    case Some(messageType) =>
      match CheckJson(payload[TYPE_ID_SIZE..], isObject)
      case Some(e) => Err(e)
      case None => Ok(Message(messageType, payload[TYPE_ID_SIZE..]))
  }

  function DecodePayload(frameType: nat, payload: bytes, isObject: bytes -> bool): (r: Result<Frame>)
    ensures r.Ok? ==> Size(r.value) == HEADER_SIZE + |payload|
    ensures r.Err? ==> r.error != Protocol(PayloadTruncated)
  {
    if frameType != MESSAGE then Ok(Hello(frameType, payload)) else DecodeMessage(payload, isObject)
  }

  /** Decodes the frame at the front of a byte sequence. */
  function Decode(raw: bytes, limit: int, isObject: bytes -> bool): Result<Frame> {
    if |raw| < HEADER_SIZE then Err(Protocol(PayloadTruncated)) else
    match DecodeHeader(raw[..HEADER_SIZE], limit)
    case Err(e) => Err(e)
    case Ok((frameType, declared)) =>
      var body := raw[HEADER_SIZE..];
      if |body| < declared then Err(Protocol(PayloadTruncated))
      else DecodePayload(frameType, body[..declared], isObject)
  }

  /** The number of bytes a frame takes on the wire. */
  function Size(frame: Frame): nat {
    HEADER_SIZE + match frame case Hello(_, payload) => |payload| case Message(_, body) => TYPE_ID_SIZE + |body|
  }

  predicate Sendable(frame: Frame, limit: int, isObject: bytes -> bool) {
    && Size(frame) - HEADER_SIZE <= limit && limit <= DEFAULT_LIMIT
    && match frame
       case Hello(t, _) => t == CLIENT_HELLO || t == SERVER_HELLO
       case Message(t, body) => t in SUPPORTED && CheckJson(body, isObject).None?
  }

  function Encode(frame: Frame, isObject: bytes -> bool): Result<bytes> {
    match frame
    case Hello(t, payload) => EncodeFrame(t, payload, DEFAULT_LIMIT)
    case Message(t, body) => EncodeMessage(t, body, isObject)
  }

  lemma DecodesHeader(frameType: nat, size: nat, limit: int)
    requires Defined(frameType) && size <= limit <= DEFAULT_LIMIT
    ensures DecodeHeader(BigEndian(frameType, 2) + BigEndian(0, 2) + BigEndian(size, 4), limit) == Ok((frameType, size))
  {
    var t, f, n := BigEndian(frameType, 2), BigEndian(0, 2), BigEndian(size, 4);
    var header := t + f + n;
    assert header[0..2] == t && header[2..4] == f && header[4..] == n;
    Widths();
    ValueOfBigEndianFits(frameType, 2);
    ValueOfBigEndianFits(0, 2);
    ValueOfBigEndianFits(size, 4);
  }

  lemma HeaderAndBody(header: bytes, payload: bytes, rest: bytes)
    requires |header| == HEADER_SIZE
    ensures (header + payload + rest)[..HEADER_SIZE] == header
    ensures (header + payload + rest)[HEADER_SIZE..] == payload + rest
  {}

  lemma HeaderRoundTrip(frameType: nat, payload: bytes, limit: int, rest: bytes)
    requires Defined(frameType) && |payload| <= limit <= DEFAULT_LIMIT
    ensures var raw := EncodeFrame(frameType, payload, DEFAULT_LIMIT);
            raw.Ok? && |raw.value| == HEADER_SIZE + |payload|
            && DecodeHeader((raw.value + rest)[..HEADER_SIZE], limit) == Ok((frameType, |payload|))
            && (raw.value + rest)[HEADER_SIZE..] == payload + rest
  {
    var header := BigEndian(frameType, 2) + BigEndian(0, 2) + BigEndian(|payload|, 4);
    DecodesHeader(frameType, |payload|, limit);
    HeaderAndBody(header, payload, rest);
    assert EncodeFrame(frameType, payload, DEFAULT_LIMIT) == Ok(header + payload);
  }

  lemma RoundTrip(frame: Frame, limit: int, isObject: bytes -> bool, rest: bytes)
    requires Sendable(frame, limit, isObject)
    ensures Encode(frame, isObject).Ok? && |Encode(frame, isObject).value| == Size(frame)
    ensures Decode(Encode(frame, isObject).value + rest, limit, isObject) == Ok(frame)
  {
    match frame
    case Hello(t, payload) =>
      HeaderRoundTrip(t, payload, limit, rest);
      assert (payload + rest)[..|payload|] == payload;
    case Message(t, body) =>
      LookupsAgree(t);
      IdTellsType(t);
      var id := BigEndian(t.v2Id, TYPE_ID_SIZE);
      var payload := id + body;
      HeaderRoundTrip(MESSAGE, payload, limit, rest);
      assert (payload + rest)[..|payload|] == payload;
      assert payload[..TYPE_ID_SIZE] == id && payload[TYPE_ID_SIZE..] == body;
      Widths();
      ValueOfBigEndianFits(t.v2Id, TYPE_ID_SIZE);
  }

  lemma {:induction false} TwoOctets(s: bytes)
    requires |s| == 2
    ensures Value(s) == s[0] as int * 256 + s[1] as int
  {
    assert s == [s[0]] + s[1..];
    FirstWeighsMost(s[0], s[1..]);
    FirstWeighsMost(s[1], []);
    assert s[1..] == [s[1]] + [];
    Widths();
  }

  /** Why a header is refused, by its octets: the first thing wrong decides. */
  lemma HeaderRefusedBy(raw: bytes, limit: int)
    requires |raw| == HEADER_SIZE
    ensures var kind, size := raw[0] as int * 256 + raw[1] as int, Value(raw[4..8]);
            DecodeHeader(raw, limit) ==
            if kind !in {1, 2, 16} then Err(Protocol(FrameTypeInvalid))
            else if raw[2] != 0 || raw[3] != 0 then Err(Protocol(FlagsUnsupported))
            else if size > limit then Err(Protocol(LengthExceeded)) else Ok((kind, size))
  {
    TwoOctets(raw[0..2]);
    TwoOctets(raw[2..4]);
    assert raw[4..] == raw[4..8];
  }

  /** Nothing else is read as a frame than what may be sent, written the one way there is: with no flags
      set. */
  lemma DecodesExactly(raw: bytes, frame: Frame, limit: int, isObject: bytes -> bool)
    requires limit <= DEFAULT_LIMIT
    ensures Decode(raw, limit, isObject) == Ok(frame) <==>
            Sendable(frame, limit, isObject) && Encode(frame, isObject).Ok? && Encode(frame, isObject).value <= raw
  {
    if Sendable(frame, limit, isObject) && Encode(frame, isObject).Ok? && Encode(frame, isObject).value <= raw {
      var wire := Encode(frame, isObject).value;
      RoundTrip(frame, limit, isObject, raw[|wire|..]);
      assert wire + raw[|wire|..] == raw;
    }
    if Decode(raw, limit, isObject) == Ok(frame) { DecodedIsEncoded(raw, frame, limit, isObject); }
  }

  lemma DecodedIsEncoded(raw: bytes, frame: Frame, limit: int, isObject: bytes -> bool)
    requires limit <= DEFAULT_LIMIT && Decode(raw, limit, isObject) == Ok(frame)
    ensures Sendable(frame, limit, isObject) && Encode(frame, isObject).Ok? && Encode(frame, isObject).value <= raw
  {
    var (kind, size) := DecodeHeader(raw[..HEADER_SIZE], limit).value;
    var payload := raw[HEADER_SIZE..][..size];
    HeaderIsEncoded(raw[..HEADER_SIZE], limit);
    assert raw[..HEADER_SIZE] + payload == raw[..HEADER_SIZE + size];
    assert EncodeFrame(kind, payload, DEFAULT_LIMIT) == Ok(raw[..HEADER_SIZE] + payload);
    if kind == MESSAGE {
      BigEndianOfValue(payload[..TYPE_ID_SIZE]);
      LookupsAgree(frame.messageType);
      assert payload == payload[..TYPE_ID_SIZE] + frame.body;
    }
  }

  lemma HeaderIsEncoded(header: bytes, limit: int)
    requires |header| == HEADER_SIZE && DecodeHeader(header, limit).Ok?
    ensures var (kind, size) := DecodeHeader(header, limit).value;
            header == BigEndian(kind, 2) + BigEndian(0, 2) + BigEndian(size, 4)
  {
    BigEndianOfValue(header[0..2]);
    BigEndianOfValue(header[2..4]);
    BigEndianOfValue(header[4..]);
    assert header == header[0..2] + header[2..4] + header[4..];
  }

  /** Reads frames from a stream. */
  class V2Reader {
    const source: Reader
    const isObject: bytes -> bool
    var limit: int

    constructor (source: Reader, limit: int, isObject: bytes -> bool)
      ensures this.source == source && this.limit == limit && this.isObject == isObject
    {
      this.source, this.limit, this.isObject := source, limit, isObject;
    }

    /** Only ever tightens the limit; a request to relax it changes nothing. */
    method SetLimit(wanted: int)
      modifies this`limit
      ensures limit == if 0 < wanted < old(limit) then wanted else old(limit)
      ensures limit <= old(limit) && (old(limit) > 0 ==> limit > 0)
    {
      if wanted <= 0 || wanted >= limit {
        return;
      }
      limit := wanted;
    }

    /** Agrees with `Decode` on the remaining bytes, under any chunking, up to the errors only
        a stream can have; a decoded frame takes exactly its own bytes. */
    method ReadFrame() returns (r: Result<Frame>)
      requires source.Valid() && this !in source.Objects()
      modifies source.Objects()
      ensures source.Valid() && fresh(source.Objects() - old(source.Objects()))
      ensures r == ReadResult(old(source.Rest()), limit, isObject)
      ensures r.Ok? ==> var s := old(source.Rest());
                        Size(r.value) <= |s.data| && source.Rest() == Stream(s.data[Size(r.value)..], s.end)
    {
      hide DecodeHeader, DecodePayload;
      ghost var all := source.Rest();
      var header, err := ReadFull(source, HEADER_SIZE);
      if err.Some? {
        return Err(if err.value == EOF then CleanEnd else Protocol(PayloadTruncated));
      }
      var h := DecodeHeader(header, limit);
      if h.Err? {
        return Err(h.error);
      }
      assert source.Rest().data == all.data[HEADER_SIZE..];
      var payload := ReadPayload(source, h.value.1);
      if payload.Err? {
        return Err(payload.error);
      }
      r := DecodePayload(h.value.0, payload.value, isObject);
    }
  }

  /** A stream that ends cleanly is read as its bytes would be decoded, save that no byte at all is a clean
      end; one that breaks gives the same frames, and an error where bytes are missing. */
  lemma ReadsAsDecoded(s: Stream, limit: int, isObject: bytes -> bool)
    ensures var r, whole := ReadResult(s, limit, isObject), Decode(s.data, limit, isObject);
            && (r == Err(CleanEnd) <==> s == Stream([], EOF))
            && (whole.Ok? ==> r == whole) && (r.Ok? ==> r == whole)
            && (s.data != [] && s.end in {EOF, UnexpectedEOF} ==> r == whole)
            && (r != whole && r != Err(CleanEnd) ==>
                  whole == Err(Protocol(PayloadTruncated)) && r == Err(Protocol(TransportFailure)))
  {}

  /** The one-shot decoder's answer, with the errors only a stream can have put in. */
  function ReadResult(s: Stream, limit: int, isObject: bytes -> bool): Result<Frame> {
    var whole := Decode(s.data, limit, isObject);
    if s.data == [] && s.end == EOF then Err(CleanEnd)
    else if whole == Err(Protocol(PayloadTruncated)) && |s.data| >= HEADER_SIZE
            && s.end != EOF && s.end != UnexpectedEOF then Err(Protocol(TransportFailure))
    else whole
  }

  /** No byte sequence is both: a registered v1 type octet is never the first magic octet. */
  lemma MagicIsNotV1(raw: bytes)
    requires MAGIC <= raw
    ensures ByV1Byte(raw[0] as int).None?
  {
    var found := ByV1Byte(raw[0] as int);
    if found.Some? { ByteTellsId(found.value); IdTellsType(found.value); }
  }
}
