/** The connection guard: decides the wire version, negotiates, and switches readers on the one
    stream of a connection. */
module Guard {
  import opened Wrappers
  import opened Bytes
  import opened Messages
  import opened Streams
  import opened Aead
  import opened Cfb
  import V1 = WireV1
  import V2 = WireV2

  datatype Version = Version1 | Version2

  /** `hello` decodes and negotiates a client hello, giving the agreed payload limit;
      `isObject` is the JSON decoder. */
  datatype Options = Options(onlyV2: bool, v2Enabled: bool, hello: bytes -> Result<int>, isObject: bytes -> bool)

  datatype Message = Message(messageType: MessageType, payload: bytes)

  datatype Detected = Selected(version: Version) | EmptyConnection | Refused(category: Category)

  /** What version detection decides from the bytes of a connection alone. */
  function Detect(s: Stream, o: Options): Detected {
    if V2.MAGIC <= s.data then
      if o.v2Enabled then Selected(Version2) else Refused(VersionNotAccepted)
    else if |s.data| < |V2.MAGIC| && s.data == [] then EmptyConnection
    else if |s.data| < |V2.MAGIC| && s.end != EOF && s.end != UnexpectedEOF then Refused(TransportFailure)
    else if o.onlyV2 then Refused(VersionNotAccepted)
    else Selected(Version1)
  }

  /** The bytes the selected reader starts from. */
  function Handed(s: Stream, version: Version): Stream
    requires version.Version2? ==> V2.MAGIC <= s.data
  {
    if version.Version2? then Stream(s.data[|V2.MAGIC|..], s.end) else s
  }

  /** What a v1 client sends is never taken for v2, whatever follows its first frame and however
      the stream ends; what a v2 client sends is never taken for v1. */
  lemma VersionsDoNotMix(frame: V1.Frame, limit: int, rest: bytes, end: ReadError, o: Options)
    requires V1.Sendable(frame, limit, o.isObject)
    ensures Detect(Stream(V1.Encode(frame, limit).value + rest, end), o) ==
            if o.onlyV2 then Refused(VersionNotAccepted) else Selected(Version1)
    ensures Detect(Stream(V2.MAGIC + rest, end), o) != Selected(Version1)
  {
    V1.RoundTrip(frame, limit, o.isObject, rest);
    var raw := V1.Encode(frame, limit).value + rest;
    if V2.MAGIC <= raw {
      V2.MagicIsNotV1(raw);
    }
  }

  /** The first seven bytes decide: the magic selects v2 and anything else v1, as far as they are allowed. */
  lemma DetectTells(s: Stream, o: Options)
    ensures Detect(s, o) == Selected(Version2) <==> V2.MAGIC <= s.data && o.v2Enabled
    ensures Detect(s, o) == Selected(Version1) <==>
            !(V2.MAGIC <= s.data) && !o.onlyV2 && s.data != [] && (|s.data| >= 7 || s.end in {EOF, UnexpectedEOF})
    ensures Detect(s, o) == EmptyConnection <==> s.data == []
  {}

  class ConnectionGuard {
    const conn: Transport
    const options: Options
    var version: Option<Version>
    var closed: bool
    var reader: PeekReader?
    var v1: V1.V1Reader?
    var v2: V2.V2Reader?

    ghost predicate Valid()
      reads this, reader, v1, v2
    {
      && (reader != null ==> reader.Valid() && !closed)
      && (v1 != null ==> !v1.source.Sealed?)
      && (v2 != null ==> !v2.source.Masking?)
    }

    /** What can still be read of the connection; nothing once it is closed. */
    ghost function Source(): Stream
      requires Valid()
      reads this, conn, reader, v1, v2, if reader == null then {} else {reader.source}
    {
      if reader != null then reader.Rest() else if closed then Stream([], Broken) else Stream(conn.rest, conn.end)
    }

    /** A v1 reader stands on the peeked stream. */
    ghost predicate BoundV1()
      reads this, v1
    {
      v1 != null && reader != null && v1.source == Peeked(reader)
      && v1.limit == V1.DEFAULT_LIMIT && v1.isObject == options.isObject
    }

    ghost predicate ReadingV1()
      reads this, reader, v1, v2, if v1 == null then {} else v1.source.Objects()
    {
      Valid() && v1 != null && v1.source.Valid() && this !in v1.source.Objects() && v1 !in v1.source.Objects()
    }

    /** A v2 reader is bound and can be read from. */
    ghost predicate Reading()
      reads this, reader, v1, v2, if v2 == null then {} else v2.source.Objects()
    {
      Valid() && v2 != null && v2.source.Valid() && this !in v2.source.Objects() && v2 !in v2.source.Objects()
    }

    /** There is a message reader for the version of the connection, and it can be read from. */
    ghost predicate Readable()
      reads this, reader, v1, v2
      reads if v1 == null then {} else v1.source.Objects(), if v2 == null then {} else v2.source.Objects()
    {
      (version == Some(Version1) && ReadingV1()) || (version == Some(Version2) && Reading())
    }

    predicate Bound()
      reads this
    {
      (version == Some(Version1) && v1 != null) || (version == Some(Version2) && v2 != null)
    }

    /** The reader of the connection's version. */
    function Current(): Reader
      requires Bound()
      reads this, v1, v2
    {
      if version == Some(Version1) then v1.source else v2.source
    }

    /** Its payload limit. */
    function Limit(): int
      requires Bound()
      reads this, v1, v2
    {
      if version == Some(Version1) then v1.limit else v2.limit
    }

    ghost predicate UsesDecoder()
      requires Bound()
      reads this, v1, v2
    {
      if version == Some(Version1) then v1.isObject == options.isObject else v2.isObject == options.isObject
    }

    constructor (conn: Transport, options: Options)
      ensures Valid() && this.conn == conn && this.options == options
      ensures version == None && !closed && reader == null && v1 == null && v2 == null
    {
      this.conn, this.options := conn, options;
      version, closed, reader, v1, v2 := None, false, null, null, null;
    }

    /** A version once locked never changes. */
    method LockVersion(wanted: Version) returns (err: Option<WireError>)
      modifies this`version
      ensures err.None? <==> old(version) in {None, Some(wanted)}
      ensures version == if err.None? then Some(wanted) else old(version)
    {
      if version.Some? && version.value != wanted {
        return Some(Protocol(VersionNotAccepted));
      }
      version := Some(wanted);
      return None;
    }

    method Close()
      requires Valid()
      modifies this`closed, this`reader
      ensures Valid() && closed
      ensures !old(closed) ==> reader == null
    {
      if !closed {
        closed, reader := true, null;
      }
    }

    /** Detection looks at the first seven bytes and leaves the rest of the connection to the
        selected version: all of the original bytes to v1, all but the magic to v2. */
    method DetectVersion() returns (r: Detected)
      requires Valid() && version == None && !closed
      modifies this, conn
      ensures Valid() && v2 == old(v2)
      ensures r == Detect(Stream(old(conn.rest), conn.end), options)
      ensures r.Selected? ==> !closed && version == Some(r.version) && reader != null && fresh(reader)
      ensures r.Selected? ==> reader.source == conn
      ensures r.Selected? ==> reader.Rest() == Handed(Stream(old(conn.rest), conn.end), r.version)
      ensures r == Selected(Version1) ==> BoundV1() && fresh(v1)
      ensures !r.Selected? ==> closed
    {
      var peeker := new PeekReader(conn);
      ghost var all := peeker.Rest();
      assert all.data == conn.rest;
      var prefix, err := peeker.Peek(|V2.MAGIC|);
      if err.Some? {
        if prefix == [] {
          Close();
          return EmptyConnection;
        }
        if err.value != UnexpectedEOF && err.value != EOF {
          Close();
          return Refused(TransportFailure);
        }
        reader := peeker;
        r := AcceptV1();
        return;
      }
      reader := peeker;
      if prefix == V2.MAGIC {
        assert V2.MAGIC <= all.data;
        r := AcceptV2();
        return;
      }
      assert !(V2.MAGIC <= all.data);
      r := AcceptV1();
    }

    method AcceptV2() returns (r: Detected)
      requires Valid() && version == None && !closed && reader != null
      requires reader.offset == 0 && V2.MAGIC <= reader.Rest().data && |reader.peeked| >= |V2.MAGIC|
      modifies this, reader
      ensures Valid() && v2 == old(v2) && (!closed ==> reader == old(reader))
      ensures r == if options.v2Enabled then Selected(Version2) else Refused(VersionNotAccepted)
      ensures r.Selected? ==> !closed && version == Some(Version2)
      ensures r.Selected? ==> reader.Rest() == Handed(old(reader.Rest()), Version2)
      ensures !r.Selected? ==> closed
    {
      if !options.v2Enabled {
        Close();
        return Refused(VersionNotAccepted);
      }
      var err := LockVersion(Version2);
      ghost var all := reader.Rest().data;
      reader.Consume(|V2.MAGIC|);
      assert reader.Rest().data == all[|V2.MAGIC|..];
      return Selected(Version2);
    }

    method AcceptV1() returns (r: Detected)
      requires Valid() && version == None && !closed && reader != null && reader.offset == 0
      modifies this, reader
      ensures Valid() && v2 == old(v2) && (!closed ==> reader == old(reader))
      ensures r == if options.onlyV2 then Refused(VersionNotAccepted) else Selected(Version1)
      ensures r.Selected? ==> !closed && version == Some(Version1) && reader.Rest() == old(reader.Rest())
      ensures r.Selected? ==> BoundV1() && fresh(v1)
      ensures !r.Selected? ==> closed
    {
      if options.onlyV2 {
        Close();
        return Refused(VersionNotAccepted);
      }
      reader.Replay();
      var err := LockVersion(Version1);
      v1 := new V1.V1Reader(Peeked(reader), V1.DEFAULT_LIMIT, options.isObject);
      return Selected(Version1);
    }

    /** Refuses what belongs to another version than the connection's. */
    method RequireVersion(wanted: Version) returns (err: Option<WireError>)
      ensures err == if version == Some(wanted) then None else Some(Protocol(VersionNotAccepted))
    {
      return if version == Some(wanted) then None else Some(Protocol(VersionNotAccepted));
    }

    /** The type of the first v2 frame, without consuming anything. */
    method PeekV2FirstFrameType() returns (r: Result<nat>)
      requires Valid()
      modifies reader, if reader == null then {} else {reader.source}
      ensures Valid() && (reader != null ==> reader.Rest() == old(reader.Rest()))
      ensures reader == null ==> r == Err(Protocol(TransportFailure))
      ensures reader != null ==> r == FirstFrameType(old(reader.Rest()))
    {
      if reader == null {
        return Err(Protocol(TransportFailure));
      }
      var header, err := reader.Peek(V2.HEADER_SIZE);
      if err.Some? {
        return Err(Protocol(PayloadTruncated));
      }
      assert header[0..2] == old(reader.Rest()).data[..2];
      return Ok(Value(header[0..2]));
    }

    /** Where negotiation reads from: the peeked stream, or the connection itself if its version was
        locked without detection. A closed connection gives an error. */
    method NegotiationStream() returns (source: Reader)
      requires Valid()
      ensures source.Valid() && source.Rest() == Source() && !source.Sealed? && !source.Masking?
      ensures if reader != null then source == Peeked(reader)
              else if closed then source.Conn? && fresh(source.conn) else source == Conn(conn)
    {
      if reader != null {
        return Peeked(reader);
      }
      if !closed {
        return Conn(conn);
      }
      var dead := new Transport([], Broken);
      return Conn(dead);
    }

    /** Reads the client hello and keeps the reader, tightened to the agreed limit, for the
        plaintext messages that follow. Any failure closes the connection. */
    method Negotiate() returns (r: Result<int>)
      requires Valid()
      modifies this, conn, reader, if reader == null then {} else {reader.source}
      ensures Valid() && version == old(version) && v1 == old(v1)
      ensures old(version) != Some(Version2) ==> r == Err(Protocol(VersionNotAccepted))
      ensures old(version) == Some(Version2) ==> r == Negotiated(old(Source()), options)
      ensures r.Err? ==> closed && v2 == old(v2)
      ensures r.Ok? ==> !closed && reader == old(reader) && Reading() && fresh(v2) && v2.isObject == options.isObject
      ensures r.Ok? ==> v2.source == if reader != null then Peeked(reader) else Conn(conn)
      ensures r.Ok? ==> v2.source.Rest() == AfterFrame(old(Source()), V2.DEFAULT_LIMIT, options.isObject)
      ensures r.Ok? ==> v2.limit == NegotiatedLimit(r.value)
    {
      hide V2.Decode;
      var wrong := RequireVersion(Version2);
      if wrong.Some? {
        Close();
        return Err(wrong.value);
      }
      var source := NegotiationStream();
      var plain := new V2.V2Reader(source, V2.DEFAULT_LIMIT, options.isObject);
      ghost var all := source.Rest();
      var frame := plain.ReadFrame();
      if frame.Err? {
        Close();
        return Err(Protocol(NegotiationFrameInvalid));
      }
      assert all.data != [];
      if frame.value.Message? || frame.value.frameType != V2.CLIENT_HELLO {
        Close();
        return Err(Protocol(NegotiationFrameInvalid));
      }
      r := options.hello(frame.value.payload);
      if r.Err? {
        Close();
        return;
      }
      plain.SetLimit(r.value);
      v2 := plain;
    }

    /** Binds a plaintext reader to a v2 connection that does not negotiate. */
    method BindV2PlainReader() returns (err: Option<WireError>)
      requires Valid()
      modifies this`v2
      ensures Valid() && err == Unbindable(version, Version2, reader != null)
      ensures err.Some? ==> v2 == old(v2)
      ensures err.None? ==> v2 != null && fresh(v2) && v2.source == Peeked(reader)
      ensures err.None? ==> v2.limit == V2.DEFAULT_LIMIT && v2.isObject == options.isObject
    {
      err := RequireVersion(Version2);
      if err.Some? {
        return;
      }
      if reader == null {
        return Some(Protocol(TransportFailure));
      }
      v2 := new V2.V2Reader(Peeked(reader), V2.DEFAULT_LIMIT, options.isObject);
    }

    /** Switches message reading to the AEAD channel, starting at the very next byte of the
        connection. The payload limit goes back to the default. */
    method EnableV2Cipher(cipher: Cipher) returns (err: Option<WireError>)
      requires Valid()
      modifies this`v2
      ensures Valid() && err == Unbindable(version, Version2, reader != null)
      ensures err.Some? ==> v2 == old(v2)
      ensures err.None? ==> Reading() && fresh(v2) && v2.source.Sealed? && fresh(v2.source.box)
      ensures err.None? ==> v2.source.box.source == reader && v2.source.box.nonce == null
      ensures err.None? ==> v2.source.Rest() == Stream(OpenChannel(cipher, reader.Rest().data), Unsealable)
      ensures err.None? ==> v2.limit == V2.DEFAULT_LIMIT && v2.isObject == options.isObject
    {
      err := RequireVersion(Version2);
      if err.Some? {
        return;
      }
      if reader == null {
        return Some(Protocol(TransportFailure));
      }
      var box := new AeadReader(reader, cipher);
      v2 := new V2.V2Reader(Sealed(box), V2.DEFAULT_LIMIT, options.isObject);
    }

    /** Switches message reading to the stream cipher, starting at the very next byte. */
    method EnableV1Cipher(cipher: Feedback) returns (err: Option<WireError>)
      requires Valid()
      modifies this`v1
      ensures Valid() && err == Unbindable(version, Version1, reader != null)
      ensures err.Some? ==> v1 == old(v1)
      ensures err.None? ==> ReadingV1() && fresh(v1) && v1.source.Masking? && fresh(v1.source.mask)
      ensures err.None? ==> v1.source.mask.source == reader
      ensures err.None? ==> v1.source.Rest() == Behind(cipher, None, [], reader.Rest())
      ensures err.None? ==> v1.limit == V1.DEFAULT_LIMIT && v1.isObject == options.isObject
    {
      err := RequireVersion(Version1);
      if err.Some? {
        return;
      }
      if reader == null {
        return Some(Protocol(TransportFailure));
      }
      var mask := new MaskReader(reader, cipher);
      v1 := new V1.V1Reader(Masking(mask), V1.DEFAULT_LIMIT, options.isObject);
    }

    /** Reads one v1 message; an error other than a clean end closes the connection. */
    method ReadV1Frame() returns (r: Result<V1.Frame>)
      requires ReadingV1()
      modifies this, v1.source.Objects()
      ensures ReadingV1() && v1 == old(v1) && v2 == old(v2) && v1.source.Objects() == old(v1.source.Objects())
      ensures r == V1.ReadResult(old(v1.source.Rest()), v1.limit, v1.isObject)
      ensures version == old(version) && (r.Ok? ==> closed == old(closed) && reader == old(reader))
      ensures r.Ok? ==> V1.HEADER_SIZE + |r.value.payload| <= |old(v1.source.Rest()).data|
      ensures r.Ok? ==> var all := old(v1.source.Rest());
                        v1.source.Rest() == Stream(all.data[V1.HEADER_SIZE + |r.value.payload|..], all.end)
      ensures r.Err? && r.error != CleanEnd ==> closed
    {
      r := v1.ReadFrame();
      if r.Err? && r.error != CleanEnd && !closed {
        closed, reader := true, null;
      }
    }

    /** Reads one v2 message on whatever reader is bound; an error other than a clean end closes
        the connection. */
    method ReadV2Frame() returns (r: Result<Message>)
      requires Reading()
      modifies this, v2.source.Objects()
      ensures v1 == old(v1) && v2 == old(v2) && v2.limit == old(v2.limit) && Reading()
      ensures fresh(v2.source.Objects() - old(v2.source.Objects()))
      ensures r == NextMessage(old(v2.source.Rest()), v2.limit, v2.isObject)
      ensures r.Ok? ==> v2.source.Rest() == AfterFrame(old(v2.source.Rest()), v2.limit, v2.isObject)
      ensures version == old(version) && (r.Ok? ==> closed == old(closed) && reader == old(reader))
      ensures r.Err? && r.error != CleanEnd ==> closed
    {
      hide V2.ReadResult;
      var frame := v2.ReadFrame();
      if frame.Err? {
        if frame.error != CleanEnd && !closed {
          closed, reader := true, null;
        }
        return Err(frame.error);
      }
      match frame.value {
        case Hello(_, _) =>
          if !closed {
            closed, reader := true, null;
          }
          return Err(Protocol(FrameTypeInvalid));
        case Message(t, body) =>
          return Ok(Message(t, body));
      }
    }

    /** Reads a message on the wire the connection has been locked to. */
    method ReadFrame() returns (r: Result<Message>)
      requires Valid() && (Bound() ==> Readable() && UsesDecoder())
      modifies this, if Bound() then Current().Objects() else {}
      ensures Valid() && version == old(version) && v1 == old(v1) && v2 == old(v2)
      ensures version == None ==> r == Err(Protocol(VersionNotAccepted))
      ensures version.Some? && !Bound() ==> r == Err(Protocol(TransportFailure))
      ensures Bound() ==> Readable() && UsesDecoder() && Limit() == old(Limit()) && Current() == old(Current())
      ensures Bound() ==> fresh(Current().Objects() - old(Current().Objects()))
      ensures Bound() ==> r == MessageOf(version.value, old(Current().Rest()), Limit(), options.isObject)
      ensures r.Ok? ==> Bound() && reader == old(reader) && closed == old(closed)
      ensures r.Ok? ==> Current().Rest() == Beyond(version.value, old(Current().Rest()), Limit(), options.isObject)
    {
      hide NextMessage, AfterFrame;
      match version {
        case None => return Err(Protocol(VersionNotAccepted));
        case Some(Version1) =>
          if v1 == null {
            return Err(Protocol(TransportFailure));
          }
          var frame := ReadV1Frame();
          return if frame.Err? then Err(frame.error) else Ok(Message(frame.value.messageType, frame.value.payload));
        case Some(Version2) =>
          if v2 == null {
            return Err(Protocol(TransportFailure));
          }
          r := ReadV2Frame();
      }
    }
  }

  /** The message at the front of a stream, on either wire. */
  function MessageOf(v: Version, s: Stream, limit: int, isObject: bytes -> bool): Result<Message> {
    if v.Version2? then NextMessage(s, limit, isObject)
    else match V1.ReadResult(s, limit, isObject)
         case Err(e) => Err(e)
         case Ok(frame) => Ok(Message(frame.messageType, frame.payload))
  }

  /** The stream behind that message. */
  function Beyond(v: Version, s: Stream, limit: int, isObject: bytes -> bool): Stream {
    if v.Version2? then AfterFrame(s, limit, isObject)
    else match V1.ReadResult(s, limit, isObject)
         case Err(_) => s
         case Ok(frame) =>
           var size := V1.HEADER_SIZE + |frame.payload|;
           if size <= |s.data| then Stream(s.data[size..], s.end) else s
  }

  /** The type of the first frame of a stream. */
  function FirstFrameType(s: Stream): Result<nat> {
    if |s.data| < V2.HEADER_SIZE then Err(Protocol(PayloadTruncated)) else Ok(Value(s.data[..2]))
  }

  /** Why no reader can be put on a connection, if so. */
  function Unbindable(version: Option<Version>, wanted: Version, hasStream: bool): Option<WireError> {
    if version != Some(wanted) then Some(Protocol(VersionNotAccepted))
    else if !hasStream then Some(Protocol(TransportFailure)) else None
  }

  function NegotiatedLimit(agreed: int): int {
    if 0 < agreed < V2.DEFAULT_LIMIT then agreed else V2.DEFAULT_LIMIT
  }

  function Negotiated(s: Stream, o: Options): Result<int> {
    match V2.ReadResult(s, V2.DEFAULT_LIMIT, o.isObject)
    case Err(_) => Err(Protocol(NegotiationFrameInvalid))
    case Ok(Message(_, _)) => Err(Protocol(NegotiationFrameInvalid))
    case Ok(Hello(t, payload)) =>
      if t != V2.CLIENT_HELLO then Err(Protocol(NegotiationFrameInvalid)) else o.hello(payload)
  }

  /** Negotiation succeeds only on a client hello, in the one form it has, and agrees on what that gives. */
  lemma NegotiatesWithClients(s: Stream, o: Options) returns (hello: bytes)
    requires Negotiated(s, o).Ok?
    ensures |hello| <= V2.DEFAULT_LIMIT && o.hello(hello) == Negotiated(s, o)
    ensures V2.EncodeFrame(V2.CLIENT_HELLO, hello, V2.DEFAULT_LIMIT).Ok?
    ensures V2.EncodeFrame(V2.CLIENT_HELLO, hello, V2.DEFAULT_LIMIT).value <= s.data
  {
    hide V2.Decode, V2.EncodeFrame, V2.EncodeMessage;
    V2.ReadsAsDecoded(s, V2.DEFAULT_LIMIT, o.isObject);
    var frame := V2.ReadResult(s, V2.DEFAULT_LIMIT, o.isObject).value;
    V2.DecodesExactly(s.data, frame, V2.DEFAULT_LIMIT, o.isObject);
    hello := frame.payload;
  }

  function NextMessage(s: Stream, limit: int, isObject: bytes -> bool): Result<Message> {
    match V2.ReadResult(s, limit, isObject)
    case Err(e) => Err(e)
    case Ok(Hello(_, _)) => Err(Protocol(FrameTypeInvalid))
    case Ok(Message(t, body)) => Ok(Message(t, body))
  }

  /** The stream after the frame at its front. */
  function AfterFrame(s: Stream, limit: int, isObject: bytes -> bool): Stream {
    match V2.ReadResult(s, limit, isObject)
    case Err(_) => s
    case Ok(frame) => if V2.Size(frame) <= |s.data| then Stream(s.data[V2.Size(frame)..], s.end) else s
  }
}
