/** Wire v1 frames: one type octet, an eight-octet signed length, a JSON payload. */
module WireV1 {
  import opened Bytes
  import opened Messages
  import opened Streams

  const HEADER_SIZE: nat := 9
  const LENGTH_SIZE: nat := 8
  const DEFAULT_LIMIT: nat := 10240
  const SIGN: nat := 0x8000_0000_0000_0000

  datatype Frame = Frame(messageType: MessageType, payload: bytes)

  function Encode(frame: Frame, limit: int): Result<bytes> {
    if ByV1Byte(frame.messageType.v1Byte as int).None? then Err(Protocol(TypeInvalid))
    else match CheckLength(|frame.payload|, limit)
    case Some(e) => Err(e)
    case None => Ok([frame.messageType.v1Byte] + BigEndian(|frame.payload|, LENGTH_SIZE) + frame.payload)
  }

  /** The type and payload length a header declares, or why the frame is refused before any
      payload is read. The length is a signed 64-bit number. */
  function DecodeHeader(header: bytes, limit: int): (r: Result<(MessageType, nat)>)
    requires |header| == HEADER_SIZE
    ensures r.Ok? ==> r.value.1 <= limit
    ensures r.Err? ==> r.error != Protocol(PayloadTruncated)
  {
    match ByV1Byte(header[0] as int)
    case None => Err(Protocol(TypeInvalid))
    case Some(messageType) =>
      var raw := Value(header[1..]);
      var declared := if raw < SIGN then raw else raw - 2 * SIGN;
      if declared < 0 then Err(Protocol(LengthInvalid)) else
      match CheckLength(declared, limit)
      case Some(e) => Err(e)
      case None => Ok((messageType, declared))
  }

  /** Decodes the frame at the front of a byte sequence. */
  function Decode(raw: bytes, limit: int, isObject: bytes -> bool): Result<Frame> {
    if |raw| < HEADER_SIZE then Err(Protocol(PayloadTruncated)) else
    match DecodeHeader(raw[..HEADER_SIZE], limit)
    case Err(e) => Err(e)
    case Ok((messageType, declared)) =>
      var body := raw[HEADER_SIZE..];
      if |body| < declared then Err(Protocol(PayloadTruncated)) else
      match CheckJson(body[..declared], isObject)
      case Some(e) => Err(e)
      case None => Ok(Frame(messageType, body[..declared]))
  }

  predicate Sendable(frame: Frame, limit: int, isObject: bytes -> bool) {
    frame.messageType in SUPPORTED && |frame.payload| <= limit && |frame.payload| < SIGN
    && CheckJson(frame.payload, isObject).None?
  }

  lemma DecodesHeader(messageType: MessageType, size: nat, limit: int)
    requires messageType in SUPPORTED && size <= limit && size < SIGN
    ensures DecodeHeader([messageType.v1Byte] + BigEndian(size, LENGTH_SIZE), limit) == Ok((messageType, size))
  {
    LookupsAgree(messageType);
    Widths();
    ValueOfBigEndianFits(size, LENGTH_SIZE);
    hide ByV1Byte, FirstWhere, BigEndian, Value, Pow256;
    var header := [messageType.v1Byte] + BigEndian(size, LENGTH_SIZE);
    assert header[1..] == BigEndian(size, LENGTH_SIZE);
  }

  lemma Parts(header: bytes, payload: bytes, rest: bytes)
    requires |header| == HEADER_SIZE
    ensures var raw := header + payload + rest;
            && raw[..HEADER_SIZE] == header && raw[HEADER_SIZE..] == payload + rest
            && (payload + rest)[..|payload|] == payload
  {}

  /** What one side may send the other side reads back, with exactly its own bytes used. */
  lemma RoundTrip(frame: Frame, limit: int, isObject: bytes -> bool, rest: bytes)
    requires Sendable(frame, limit, isObject)
    ensures Encode(frame, limit).Ok?
    ensures Decode(Encode(frame, limit).value + rest, limit, isObject) == Ok(frame)
    ensures |Encode(frame, limit).value| == HEADER_SIZE + |frame.payload|
  {
    LookupsAgree(frame.messageType);
    hide ByV1Byte, FirstWhere, BigEndian, DecodeHeader;
    var header := [frame.messageType.v1Byte] + BigEndian(|frame.payload|, LENGTH_SIZE);
    DecodesHeader(frame.messageType, |frame.payload|, limit);
    Parts(header, frame.payload, rest);
  }

  /** And nothing else is read as that frame: what decodes is what may be sent, written the one way there
      is. */
  lemma DecodesExactly(raw: bytes, frame: Frame, limit: int, isObject: bytes -> bool)
    ensures Decode(raw, limit, isObject) == Ok(frame) <==>
            Sendable(frame, limit, isObject) && Encode(frame, limit).Ok? && Encode(frame, limit).value <= raw
  {
    hide Decode, Encode, Sendable;
    if Decode(raw, limit, isObject) == Ok(frame) { DecodedIsEncoded(raw, frame, limit, isObject); }
    if Sendable(frame, limit, isObject) && Encode(frame, limit).Ok? && Encode(frame, limit).value <= raw {
      var wire := Encode(frame, limit).value;
      RoundTrip(frame, limit, isObject, raw[|wire|..]);
      assert wire + raw[|wire|..] == raw;
    }
  }

  lemma DecodedIsEncoded(raw: bytes, frame: Frame, limit: int, isObject: bytes -> bool)
    requires Decode(raw, limit, isObject) == Ok(frame)
    ensures Sendable(frame, limit, isObject) && Encode(frame, limit).Ok? && Encode(frame, limit).value <= raw
  {
    var header, size := raw[..HEADER_SIZE], |frame.payload|;
    HeaderIs(header, limit);
    hide ByV1Byte, Value, BigEndian, DecodeHeader, Encode;
    EncodesBehind(frame, header, limit);
    Front(raw, size);
  }

  /** An accepted header is the one its type and length are written as. */
  lemma HeaderIs(header: bytes, limit: int)
    requires |header| == HEADER_SIZE && DecodeHeader(header, limit).Ok?
    ensures var (messageType, size) := DecodeHeader(header, limit).value;
            && messageType in SUPPORTED && size < SIGN
            && header == [messageType.v1Byte] + BigEndian(size, LENGTH_SIZE)
  {
    HeaderTells(header, limit);
    HeaderSmall(header, limit);
    BigEndianOfValue(header[1..]);
    hide DecodeHeader, Value, BigEndian, ByV1Byte;
    assert header == [header[0]] + header[1..];
  }

  lemma EncodesBehind(frame: Frame, header: bytes, limit: int)
    requires frame.messageType in SUPPORTED && |frame.payload| <= limit
    requires header == [frame.messageType.v1Byte] + BigEndian(|frame.payload|, LENGTH_SIZE)
    ensures Encode(frame, limit) == Ok(header + frame.payload)
  {
    LookupsAgree(frame.messageType);
    hide ByV1Byte, BigEndian;
  }

  lemma Front(raw: bytes, size: nat)
    requires |raw| >= 9 + size
    ensures raw[..9] + raw[9..][..size] <= raw
  {
    assert raw[..9] + raw[9..][..size] == raw[..9 + size];
  }

  lemma HeaderSmall(header: bytes, limit: int)
    requires |header| == HEADER_SIZE && DecodeHeader(header, limit).Ok?
    ensures DecodeHeader(header, limit).value.1 < SIGN
  {
    ValueBound(header[1..]);
    Widths();
    hide ByV1Byte, Value, Pow256;
  }

  predicate TypeOctet(value: int) { exists t :: t in SUPPORTED && t.v1Byte as int == value }

  lemma TypeOctetFound(value: int)
    ensures ByV1Byte(value).Some? <==> TypeOctet(value)
    ensures ByV1Byte(value).Some? ==> ByV1Byte(value).value in SUPPORTED && ByV1Byte(value).value.v1Byte as int == value
  {
    if t :| t in SUPPORTED && t.v1Byte as int == value { LookupsAgree(t); }
    hide FirstWhere;
  }

  /** What a header says, and why it is refused, by its octets: the first thing wrong decides. */
  lemma HeaderTells(header: bytes, limit: int)
    requires |header| == HEADER_SIZE
    ensures match DecodeHeader(header, limit)
            case Ok((messageType, declared)) =>
              && messageType in SUPPORTED && messageType.v1Byte == header[0]
              && header[1] < 128 && declared == Value(header[1..]) <= limit
            case Err(e) =>
              if !TypeOctet(header[0] as int) then e == Protocol(TypeInvalid)
              else if header[1] >= 128 then e == Protocol(LengthInvalid)
              else e == Protocol(LengthExceeded) && Value(header[1..]) > limit
  {
    var size := header[1..];
    assert size == [size[0]] + size[1..];
    FirstWeighsMost(size[0], size[1..]);
    ValueBound(size[1..]);
    SevenOctets();
    TypeOctetFound(header[0] as int);
    hide ByV1Byte, TypeOctet, Value, Pow256;
  }

  /** What becomes of the rest of a frame whose header is accepted. */
  lemma BodyTells(header: bytes, body: bytes, messageType: MessageType, size: nat, limit: int,
                  isObject: bytes -> bool)
    requires |header| == HEADER_SIZE && DecodeHeader(header, limit) == Ok((messageType, size))
    ensures Decode(header + body, limit, isObject) ==
            if |body| < size then Err(Protocol(PayloadTruncated))
            else if size == 0 || !isObject(body[..size]) then Err(Protocol(JsonInvalid))
            else Ok(Frame(messageType, body[..size]))
  {
    var raw := header + body;
    assert raw[..HEADER_SIZE] == header && raw[HEADER_SIZE..] == body;
    hide DecodeHeader;
  }

  lemma SevenOctets()
    ensures Pow256(7) == 0x100_0000_0000_0000
  {
    Widths();
    assert Pow256(8) == 256 * Pow256(7);
  }

  /** Two frames that encode alike are alike. */
  lemma EncodingsDiffer(a: Frame, b: Frame, limit: int, isObject: bytes -> bool)
    requires Sendable(a, limit, isObject) && Sendable(b, limit, isObject)
    requires Encode(a, limit) == Encode(b, limit)
    ensures a == b
  {
    RoundTrip(a, limit, isObject, []);
    RoundTrip(b, limit, isObject, []);
  }

  /** Reads frames from a stream. */
  class V1Reader {
    const source: Reader
    const limit: int
    const isObject: bytes -> bool

    constructor (source: Reader, limit: int, isObject: bytes -> bool)
      ensures this.source == source && this.limit == limit && this.isObject == isObject
    {
      this.source, this.limit, this.isObject := source, limit, isObject;
    }

    /** Agrees with `Decode` on the remaining bytes, under any chunking, except that a short
        read of a stream that broke is a transport failure, and that nothing at all before
        EOF is a clean end. */
    method ReadFrame() returns (r: Result<Frame>)
      requires source.Valid()
      modifies source.Objects()
      ensures source.Valid() && fresh(source.Objects() - old(source.Objects()))
      ensures r == ReadResult(old(source.Rest()), limit, isObject)
      ensures r.Ok? ==> var s := old(source.Rest());
                        source.Rest() == Stream(s.data[HEADER_SIZE + |r.value.payload|..], s.end)
    {
      hide DecodeHeader, Value, ByV1Byte;
      ghost var all := source.Rest();
      var header, err := ReadFull(source, HEADER_SIZE);
      if err.Some? {
        return Err(match err.value
                   case EOF => CleanEnd
                   case UnexpectedEOF => Protocol(PayloadTruncated)
                   case _ => Protocol(TransportFailure));
      }
      var h := DecodeHeader(header, limit);
      if h.Err? {
        return Err(h.error);
      }
      assert source.Rest().data == all.data[HEADER_SIZE..];
      var payload := ReadPayload(source, h.value.1);
      if payload.Err? {
        return Err(payload.error);
      }
      var bad := CheckJson(payload.value, isObject);
      if bad.Some? {
        return Err(bad.value);
      }
      return Ok(Frame(h.value.0, payload.value));
    }
  }

  /** A stream that ends cleanly is read as its bytes would be decoded, save that no byte at all is a clean
      end; one that breaks gives the same frames, and an error where bytes are missing. */
  lemma ReadsAsDecoded(s: Stream, limit: int, isObject: bytes -> bool)
    ensures var r, whole := ReadResult(s, limit, isObject), Decode(s.data, limit, isObject);
            && (r == Err(CleanEnd) <==> s == Stream([], EOF))
            && (whole.Ok? ==> r == whole) && (r.Ok? ==> r == whole)
            && (s.data != [] && s.end in {EOF, UnexpectedEOF} ==> r == whole)
            && (r != whole && r != Err(CleanEnd) ==>
                  whole == Err(Protocol(PayloadTruncated)) && r == Err(Protocol(TransportFailure)))
  {}

  /** The one-shot decoder's answer, with the errors only a stream can have put in. */
  function ReadResult(s: Stream, limit: int, isObject: bytes -> bool): Result<Frame> {
    var whole := Decode(s.data, limit, isObject);
    if whole != Err(Protocol(PayloadTruncated)) then whole
    else if s.end == EOF && s.data == [] then Err(CleanEnd)
    else if s.end == EOF || s.end == UnexpectedEOF then whole
    else Err(Protocol(TransportFailure))
  }
}
