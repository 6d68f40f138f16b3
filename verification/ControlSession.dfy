/** One control connection from its first byte: detection, negotiation, login in plain text,
    then messages, in plain text or over an encrypted channel. */
module ControlSession {
  import opened Wrappers
  import opened Bytes
  import opened Messages
  import opened Streams
  import opened Aead
  import opened Cfb
  import opened Guard
  import V1 = WireV1
  import V2 = WireV2

  /** What the server decides about the payload of a login. A client in official form goes on
      encrypted, with the channel of its wire version; a login that cannot be given one is denied. */
  datatype Verdict = Denied | Plain | Encrypted(feedback: Feedback, cipher: Cipher)

  /** The messages the control loop acts on; any other ends the session. */
  predicate Handled(m: Message) {
    m.messageType.name == PING.name || m.messageType.name == NEW_PROXY.name || m.messageType.name == CLOSE_PROXY.name
  }

  /** Everything the control loop acts on, given the stream its reader stands on. */
  function Served(v: Version, s: Stream, limit: int, isObject: bytes -> bool): seq<Message>
    decreases |s.data|
  {
    var m := MessageOf(v, s, limit, isObject);
    var next := Beyond(v, s, limit, isObject);
    if m.Err? || !Handled(m.value) || |next.data| >= |s.data| then []
    else [m.value] + Served(v, next, limit, isObject)
  }

  function DefaultLimit(v: Version): int { if v.Version1? then V1.DEFAULT_LIMIT else V2.DEFAULT_LIMIT }

  /** A session that has got as far as its login: what follows the login, and the payload limit. */
  datatype Entered = Entered(version: Version, login: Message, after: Stream, limit: int)

  function LoginOf(v: Version, s: Stream, limit: int, isObject: bytes -> bool): Option<Entered> {
    var first := MessageOf(v, s, limit, isObject);
    if first.Err? || first.value.messageType != LOGIN then None
    else Some(Entered(v, first.value, Beyond(v, s, limit, isObject), limit))
  }

  /** Hello and login of a v2 session, behind the magic. */
  function HelloAndLogin(s: Stream, o: Options): Option<Entered> {
    var agreed := Negotiated(s, o);
    if agreed.Err? then None
    else LoginOf(Version2, AfterFrame(s, V2.DEFAULT_LIMIT, o.isObject), NegotiatedLimit(agreed.value), o.isObject)
  }

  /** The part of a session before its messages. */
  function Opening(s: Stream, o: Options): Option<Entered> {
    match Detect(s, o)
    case Selected(Version1) => LoginOf(Version1, s, V1.DEFAULT_LIMIT, o.isObject)
    case Selected(Version2) =>
      var handed := Handed(s, Version2);
      var kind := FirstFrameType(handed);
      if kind.Err? || kind.value == V2.MESSAGE then None else HelloAndLogin(handed, o)
    case _ => None
  }

  /** The stream behind the cipher of a wire version. */
  function Deciphered(v: Version, s: Stream, verdict: Verdict): Stream
    requires verdict.Encrypted?
  {
    if v.Version1? then Behind(verdict.feedback, None, [], s)
    else Stream(OpenChannel(verdict.cipher, s.data), Unsealable)
  }

  /** The messages after a login that has been judged. */
  function ServedAfter(e: Entered, isObject: bytes -> bool, verdict: Verdict): seq<Message> {
    match verdict
    case Denied => []
    case Plain => [e.login] + Served(e.version, e.after, e.limit, isObject)
    case Encrypted(_, _) =>
      [e.login] + Served(e.version, Deciphered(e.version, e.after, verdict), DefaultLimit(e.version), isObject)
  }

  /** What a control connection delivers, as a function of its bytes: an accepted login and the
      messages after it. */
  function Delivered(s: Stream, o: Options, verdict: bytes -> Verdict): seq<Message> {
    match Opening(s, o)
    case None => []
    case Some(e) => ServedAfter(e, o.isObject, verdict(e.login.payload))
  }

  /** Serves a control connection. What it delivers depends on the bytes alone, not on the
      pieces in which they arrive. */
  method HandleControl(conn: Transport, o: Options, verdict: bytes -> Verdict) returns (got: seq<Message>)
    modifies conn
    ensures got == Delivered(Stream(old(conn.rest), conn.end), o, verdict)
  {
    hide LoginOf, ServedAfter, FirstFrameType, AfterFrame, Detect;
    var guard := new ConnectionGuard(conn, o);
    var d := guard.DetectVersion();
    if !d.Selected? {
      return [];
    }
    if d.version == Version2 {
      var kind := guard.PeekV2FirstFrameType();
      if kind.Err? || kind.value == V2.MESSAGE {
        return [];
      }
      var agreed := guard.Negotiate();
      if agreed.Err? {
        return [];
      }
    }
    got := ServeLogin(guard, verdict);
  }

  /** Reads the first message and, if it is a login that is accepted, what follows. */
  method ServeLogin(guard: ConnectionGuard, verdict: bytes -> Verdict) returns (got: seq<Message>)
    requires guard.Bound() && guard.Readable() && guard.UsesDecoder()
    requires guard.reader != null && guard.Current() == Peeked(guard.reader)
    modifies guard, guard.reader, guard.reader.source
    ensures got == match LoginOf(old(guard.version.value), old(guard.reader.Rest()), old(guard.Limit()),
                                 guard.options.isObject)
                   case None => []
                   case Some(e) => ServedAfter(e, guard.options.isObject, verdict(e.login.payload))
  {
    var first := guard.ReadFrame();
    if first.Err? || first.value.messageType != LOGIN {
      return [];
    }
    var judged := verdict(first.value.payload);
    if judged.Denied? {
      return [];
    }
    if judged.Encrypted? {
      SwitchCipher(guard, judged);
    }
    var rest := ServeLoop(guard);
    return [first.value] + rest;
  }

  /** Puts the cipher of the connection's version between the stream and the message reader. */
  method SwitchCipher(guard: ConnectionGuard, verdict: Verdict)
    requires guard.Valid() && guard.version.Some? && guard.reader != null && verdict.Encrypted?
    modifies guard
    ensures guard.version == old(guard.version) && guard.reader == old(guard.reader)
    ensures guard.Bound() && guard.Readable() && guard.UsesDecoder() &&
            guard.Limit() == DefaultLimit(guard.version.value)
    ensures guard.Current().Rest() == Deciphered(guard.version.value, guard.reader.Rest(), verdict)
    ensures fresh(guard.Current().Objects() - {guard.reader, guard.reader.source})
  {
    match guard.version {
      case Some(Version1) => var _ := guard.EnableV1Cipher(verdict.feedback);
      case Some(Version2) => var _ := guard.EnableV2Cipher(verdict.cipher);
    }
  }

  method ServeLoop(guard: ConnectionGuard) returns (got: seq<Message>)
    requires guard.Bound() && guard.Readable() && guard.UsesDecoder()
    modifies guard, guard.Current().Objects()
    ensures guard.version == old(guard.version)
    ensures got == Served(guard.version.value, old(guard.Current().Rest()), old(guard.Limit()), guard.options.isObject)
  {
    hide MessageOf, Beyond, Served;
    got := [];
    ghost var v, limit, isObject := guard.version.value, guard.Limit(), guard.options.isObject;
    ghost var all := Served(v, guard.Current().Rest(), limit, isObject);
    while true
      invariant guard.Bound() && guard.Readable() && guard.UsesDecoder() && guard.version == Some(v)
      invariant guard.Limit() == limit && fresh(guard.Current().Objects() - old(guard.Current().Objects()))
      invariant got + Served(v, guard.Current().Rest(), limit, isObject) == all
      decreases |guard.Current().Rest().data|
    {
      ghost var before := guard.Current().Rest();
      var m := guard.ReadFrame();
      if m.Err? || !Handled(m.value) {
        ServedEnds(v, before, limit, isObject);
        return;
      }
      ServedStep(v, before, limit, isObject);
      AppendCons(got, m.value, Served(v, guard.Current().Rest(), limit, isObject));
      got := got + [m.value];
    }
  }

  lemma AppendCons(got: seq<Message>, m: Message, later: seq<Message>)
    ensures got + ([m] + later) == got + [m] + later
  {}

  lemma ServedEnds(v: Version, s: Stream, limit: int, isObject: bytes -> bool)
    requires MessageOf(v, s, limit, isObject).Err? || !Handled(MessageOf(v, s, limit, isObject).value)
    ensures Served(v, s, limit, isObject) == []
  {}

  lemma ServedStep(v: Version, s: Stream, limit: int, isObject: bytes -> bool)
    requires MessageOf(v, s, limit, isObject).Ok? && Handled(MessageOf(v, s, limit, isObject).value)
    ensures |Beyond(v, s, limit, isObject).data| < |s.data|
    ensures Served(v, s, limit, isObject)
         == [MessageOf(v, s, limit, isObject).value] + Served(v, Beyond(v, s, limit, isObject), limit, isObject)
  {
    FrameUses(v, s, limit, isObject);
  }

  /** A message that was read took some bytes. */
  lemma FrameUses(v: Version, s: Stream, limit: int, isObject: bytes -> bool)
    requires MessageOf(v, s, limit, isObject).Ok?
    ensures |Beyond(v, s, limit, isObject).data| < |s.data|
  {
    if v.Version2? {
      V2FrameFits(s.data, limit, isObject);
    } else {
      V1FrameFits(s.data, limit, isObject);
    }
  }

  lemma V2FrameFits(raw: bytes, limit: int, isObject: bytes -> bool)
    requires V2.Decode(raw, limit, isObject).Ok?
    ensures V2.HEADER_SIZE <= V2.Size(V2.Decode(raw, limit, isObject).value) <= |raw|
  {}

  lemma V1FrameFits(raw: bytes, limit: int, isObject: bytes -> bool)
    requires V1.Decode(raw, limit, isObject).Ok?
    ensures V1.HEADER_SIZE + |V1.Decode(raw, limit, isObject).value.payload| <= |raw|
    ensures |V1.Decode(raw, limit, isObject).value.payload| <= limit
  {}

  // What the two sides send.

  function Frame(m: Message): V2.Frame { V2.Message(m.messageType, m.payload) }

  predicate Sendable(v: Version, m: Message, isObject: bytes -> bool) {
    if v.Version1? then V1.Sendable(V1.Frame(m.messageType, m.payload), V1.DEFAULT_LIMIT, isObject)
    else V2.Sendable(Frame(m), V2.DEFAULT_LIMIT, isObject)
  }

  /** A message of the control loop. */
  predicate Proper(m: Message) {
    m.messageType.name == "ping" || m.messageType.name == "new-proxy" || m.messageType.name == "close-proxy"
  }

  predicate AllSendable(v: Version, ms: seq<Message>, isObject: bytes -> bool) {
    forall k :: 0 <= k < |ms| ==> Sendable(v, ms[k], isObject) && Proper(ms[k])
  }

  predicate WithinLimit(v: Version, m: Message, limit: int) {
    (if v.Version1? then |m.payload| else V2.TYPE_ID_SIZE + |m.payload|) <= limit
  }

  /** The limits a session can have. */
  predicate Agreeable(v: Version, limit: int) {
    if v.Version1? then limit == V1.DEFAULT_LIMIT else limit <= V2.DEFAULT_LIMIT
  }

  function EncodeFrame(frame: V2.Frame, isObject: bytes -> bool): bytes {
    match V2.Encode(frame, isObject) case Ok(raw) => raw case Err(_) => []
  }

  function EncodeMessage(v: Version, m: Message, isObject: bytes -> bool): bytes {
    if v.Version2? then EncodeFrame(Frame(m), isObject)
    else match V1.Encode(V1.Frame(m.messageType, m.payload), V1.DEFAULT_LIMIT) case Ok(raw) => raw case Err(_) => []
  }

  /** The frames of a list of messages, one after another. */
  function EncodeAll(v: Version, ms: seq<Message>, isObject: bytes -> bool): bytes {
    if ms == [] then [] else EncodeMessage(v, ms[0], isObject) + EncodeAll(v, ms[1..], isObject)
  }

  lemma ReadHello(hello: bytes, isObject: bytes -> bool, rest: bytes, end: ReadError)
    requires V2.Sendable(V2.Hello(V2.CLIENT_HELLO, hello), V2.DEFAULT_LIMIT, isObject)
    ensures var s := Stream(EncodeFrame(V2.Hello(V2.CLIENT_HELLO, hello), isObject) + rest, end);
            V2.ReadResult(s, V2.DEFAULT_LIMIT, isObject) == Result.Ok(V2.Hello(V2.CLIENT_HELLO, hello))
            && AfterFrame(s, V2.DEFAULT_LIMIT, isObject) == Stream(rest, end)
  {
    var frame := V2.Hello(V2.CLIENT_HELLO, hello);
    V2.RoundTrip(frame, V2.DEFAULT_LIMIT, isObject, rest);
    assert (EncodeFrame(frame, isObject) + rest)[V2.Size(frame)..] == rest;
  }

  /** Reading one encoded message gives the message and leaves what follows it. */
  lemma ReadEncoded(v: Version, m: Message, limit: int, isObject: bytes -> bool, rest: bytes, end: ReadError)
    requires Sendable(v, m, isObject) && WithinLimit(v, m, limit) && Agreeable(v, limit)
    ensures var s := Stream(EncodeMessage(v, m, isObject) + rest, end);
            MessageOf(v, s, limit, isObject) == Result.Ok(m) && Beyond(v, s, limit, isObject) == Stream(rest, end)
  {
    var raw := EncodeMessage(v, m, isObject);
    if v.Version2? {
      V2.RoundTrip(Frame(m), limit, isObject, rest);
      assert (raw + rest)[V2.Size(Frame(m))..] == rest;
    } else {
      V1.RoundTrip(V1.Frame(m.messageType, m.payload), limit, isObject, rest);
      assert (raw + rest)[V1.HEADER_SIZE + |m.payload|..] == rest;
    }
  }

  lemma EncodedAs(m: Message, isObject: bytes -> bool)
    requires Sendable(Version2, m, isObject)
    ensures Result.Ok(EncodeMessage(Version2, m, isObject))
         == V2.EncodeFrame(V2.MESSAGE, BigEndian(m.messageType.v2Id, V2.TYPE_ID_SIZE) + m.payload, V2.DEFAULT_LIMIT)
  {
    LookupsAgree(m.messageType);
  }

  /** A message over the limit is not read: its header is refused. */
  lemma OverLimitStops(m: Message, limit: int, isObject: bytes -> bool, rest: bytes, end: ReadError)
    requires Sendable(Version2, m, isObject) && !WithinLimit(Version2, m, limit)
    ensures MessageOf(Version2, Stream(EncodeMessage(Version2, m, isObject) + rest, end), limit, isObject)
         == Result.Err(Protocol(LengthExceeded))
  {
    hide V2.DecodeHeader, V2.Encode, V2.EncodeFrame, ByV2Id;
    var payload := BigEndian(m.messageType.v2Id, V2.TYPE_ID_SIZE) + m.payload;
    EncodedAs(m, isObject);
    V2.HeaderRoundTrip(V2.MESSAGE, payload, V2.DEFAULT_LIMIT, rest);
    var raw := EncodeMessage(Version2, m, isObject) + rest;
    LimitRefuses(raw[..V2.HEADER_SIZE], V2.MESSAGE, |payload|, V2.DEFAULT_LIMIT, limit);
  }

  lemma LimitRefuses(header: bytes, frameType: nat, size: nat, limit: int, lower: int)
    requires |header| == V2.HEADER_SIZE && V2.DecodeHeader(header, limit) == Result.Ok((frameType, size)) &&
             size > lower
    ensures V2.DecodeHeader(header, lower) == Result.Err(Protocol(LengthExceeded))
  {}

  /** How many messages there are before the first over the limit. */
  function Fitting(v: Version, ms: seq<Message>, limit: int): (n: nat)
    ensures n <= |ms|
    ensures n == |ms| <==> forall k :: 0 <= k < |ms| ==> WithinLimit(v, ms[k], limit)
    ensures forall k :: 0 <= k < n ==> WithinLimit(v, ms[k], limit)
  {
    if ms == [] || !WithinLimit(v, ms[0], limit) then 0 else 1 + Fitting(v, ms[1..], limit)
  }

  lemma NothingServed(v: Version, limit: int, isObject: bytes -> bool, end: ReadError)
    ensures Served(v, Stream([], end), limit, isObject) == []
  {
    assert V2.Decode([], limit, isObject).Err? && V1.Decode([], limit, isObject).Err?;
  }

  lemma ServedFirst(v: Version, m: Message, limit: int, isObject: bytes -> bool, rest: bytes, end: ReadError)
    requires Sendable(v, m, isObject) && Handled(m) && Agreeable(v, limit)
    ensures Served(v, Stream(EncodeMessage(v, m, isObject) + rest, end), limit, isObject)
         == if WithinLimit(v, m, limit) then [m] + Served(v, Stream(rest, end), limit, isObject) else []
  {
    hide Served, Sendable, EncodeMessage, MessageOf, Beyond;
    if WithinLimit(v, m, limit) {
      ReadEncoded(v, m, limit, isObject, rest, end);
      ServedStep(v, Stream(EncodeMessage(v, m, isObject) + rest, end), limit, isObject);
    } else {
      NotServed(v, m, limit, isObject, rest, end);
    }
  }

  lemma NotServed(v: Version, m: Message, limit: int, isObject: bytes -> bool, rest: bytes, end: ReadError)
    requires Sendable(v, m, isObject) && Agreeable(v, limit) && !WithinLimit(v, m, limit)
    ensures Served(v, Stream(EncodeMessage(v, m, isObject) + rest, end), limit, isObject) == []
  {
    if v.Version2? { OverLimitStops(m, limit, isObject, rest, end); }
  }

  /** The loop serves what was sent, in order, up to the first message over the limit. */
  lemma {:induction false} ServedInOrder(v: Version, ms: seq<Message>, limit: int, isObject: bytes -> bool,
                                         end: ReadError)
    requires AllSendable(v, ms, isObject) && Agreeable(v, limit)
    ensures Served(v, Stream(EncodeAll(v, ms, isObject), end), limit, isObject) == ms[..Fitting(v, ms, limit)]
  {
    hide EncodeMessage, Sendable, Served, WithinLimit;
    if ms == [] {
      NothingServed(v, limit, isObject, end);
    } else {
      ServedFirst(v, ms[0], limit, isObject, EncodeAll(v, ms[1..], isObject), end);
      ServedInOrder(v, ms[1..], limit, isObject, end);
    }
  }

  /** Nothing over the limit is ever served, whatever the bytes. */
  lemma {:induction false} ServedWithinLimit(v: Version, s: Stream, limit: int, isObject: bytes -> bool)
    ensures forall k :: 0 <= k < |Served(v, s, limit, isObject)| ==>
              WithinLimit(v, Served(v, s, limit, isObject)[k], limit)
    decreases |s.data|
  {
    var m := MessageOf(v, s, limit, isObject);
    if m.Ok? && Handled(m.value) {
      ServedStep(v, s, limit, isObject);
      MessageWithinLimit(v, s, limit, isObject);
      ServedWithinLimit(v, Beyond(v, s, limit, isObject), limit, isObject);
    }
  }

  lemma MessageWithinLimit(v: Version, s: Stream, limit: int, isObject: bytes -> bool)
    requires MessageOf(v, s, limit, isObject).Ok?
    ensures WithinLimit(v, MessageOf(v, s, limit, isObject).value, limit)
  {
    if v.Version1? { V1FrameFits(s.data, limit, isObject); }
  }

  /** Bytes that come later never change what was already served. */
  lemma {:induction false} ServedPrefix(v: Version, part: bytes, more: bytes, limit: int, isObject: bytes -> bool,
                                        e: ReadError, f: ReadError)
    ensures Served(v, Stream(part, e), limit, isObject) <= Served(v, Stream(part + more, f), limit, isObject)
    decreases |part|
  {
    var s, t := Stream(part, e), Stream(part + more, f);
    var m := MessageOf(v, s, limit, isObject);
    if m.Ok? && Handled(m.value) {
      hide MessageOf, Beyond, Served;
      StepPrefix(v, part, more, limit, isObject, e, f);
      var next := Beyond(v, s, limit, isObject);
      ServedStep(v, s, limit, isObject);
      ServedStep(v, t, limit, isObject);
      ServedPrefix(v, next.data, more, limit, isObject, e, f);
      assert next == Stream(next.data, e);
    }
  }

  lemma StepPrefix(v: Version, part: bytes, more: bytes, limit: int, isObject: bytes -> bool, e: ReadError,
                   f: ReadError)
    requires MessageOf(v, Stream(part, e), limit, isObject).Ok?
    ensures MessageOf(v, Stream(part + more, f), limit, isObject) == MessageOf(v, Stream(part, e), limit, isObject)
    ensures Beyond(v, Stream(part, e), limit, isObject).end == e
    ensures Beyond(v, Stream(part + more, f), limit, isObject)
         == Stream(Beyond(v, Stream(part, e), limit, isObject).data + more, f)
  {
    hide V1.Decode, V2.Decode;
    if v.Version2? {
      DecodePrefix(part, more, limit, isObject);
      V2FrameFits(part, limit, isObject);
      var size := V2.Size(V2.Decode(part, limit, isObject).value);
      assert (part + more)[size..] == part[size..] + more;
    } else {
      DecodePrefixV1(part, more, limit, isObject);
      V1FrameFits(part, limit, isObject);
      var size := V1.HEADER_SIZE + |V1.Decode(part, limit, isObject).value.payload|;
      assert (part + more)[size..] == part[size..] + more;
    }
  }

  lemma DecodePrefix(part: bytes, more: bytes, limit: int, isObject: bytes -> bool)
    requires V2.Decode(part, limit, isObject).Ok?
    ensures V2.Decode(part + more, limit, isObject) == V2.Decode(part, limit, isObject)
  {
    var whole := part + more;
    assert whole[..V2.HEADER_SIZE] == part[..V2.HEADER_SIZE];
    var declared := V2.DecodeHeader(part[..V2.HEADER_SIZE], limit).value.1;
    assert whole[V2.HEADER_SIZE..][..declared] == part[V2.HEADER_SIZE..][..declared];
  }

  lemma DecodePrefixV1(part: bytes, more: bytes, limit: int, isObject: bytes -> bool)
    requires V1.Decode(part, limit, isObject).Ok?
    ensures V1.Decode(part + more, limit, isObject) == V1.Decode(part, limit, isObject)
  {
    var whole := part + more;
    assert whole[..V1.HEADER_SIZE] == part[..V1.HEADER_SIZE];
    var declared := V1.DecodeHeader(part[..V1.HEADER_SIZE], limit).value.1;
    assert whole[V1.HEADER_SIZE..][..declared] == part[V1.HEADER_SIZE..][..declared];
  }

  /** From a part of what was sent the loop serves a first part of what it serves from all of it. */
  lemma ServedFromPart(v: Version, ms: seq<Message>, part: bytes, limit: int, isObject: bytes -> bool, end: ReadError)
    requires AllSendable(v, ms, isObject) && Agreeable(v, limit) && part <= EncodeAll(v, ms, isObject)
    ensures Served(v, Stream(part, end), limit, isObject) <= ms[..Fitting(v, ms, limit)]
    ensures part == EncodeAll(v, ms, isObject) ==>
              Served(v, Stream(part, end), limit, isObject) == ms[..Fitting(v, ms, limit)]
  {
    var sent := EncodeAll(v, ms, isObject);
    ServedInOrder(v, ms, limit, isObject, end);
    ServedPrefix(v, part, sent[|part|..], limit, isObject, end, end);
    assert part + sent[|part|..] == sent;
  }

  // Whole sessions.

  /** What a client sends before its messages: on v2 magic, hello and login, on v1 only the login. */
  function Preface(v: Version, hello: bytes, login: Message, isObject: bytes -> bool): bytes {
    if v.Version1? then EncodeMessage(v, login, isObject)
    else V2.MAGIC + EncodeFrame(V2.Hello(V2.CLIENT_HELLO, hello), isObject) + EncodeMessage(v, login, isObject)
  }

  /** The payload limit of a session's plain text. */
  function SessionLimit(v: Version, o: Options, hello: bytes): int
    requires v.Version2? ==> o.hello(hello).Ok?
  {
    if v.Version1? then V1.DEFAULT_LIMIT else NegotiatedLimit(o.hello(hello).value)
  }

  predicate GoodStart(v: Version, o: Options, hello: bytes, login: Message) {
    && (if v.Version1? then !o.onlyV2
        else o.v2Enabled && o.hello(hello).Ok?
             && V2.Sendable(V2.Hello(V2.CLIENT_HELLO, hello), V2.DEFAULT_LIMIT, o.isObject))
    && Sendable(v, login, o.isObject) && WithinLimit(v, login, SessionLimit(v, o, hello))
    && login.messageType == LOGIN
  }

  /** Up to the login, and standing on exactly the bytes after it. */
  lemma StartDelivers(v: Version, o: Options, hello: bytes, login: Message, tail: bytes, end: ReadError)
    requires GoodStart(v, o, hello, login)
    ensures Opening(Stream(Preface(v, hello, login, o.isObject) + tail, end), o)
         == Some(Entered(v, login, Stream(tail, end), SessionLimit(v, o, hello)))
  {
    if v.Version1? {
      StartDeliversV1(o, login, tail, end);
    } else {
      StartDeliversV2(o, hello, login, tail, end);
    }
  }

  lemma StartDeliversV1(o: Options, login: Message, tail: bytes, end: ReadError)
    requires GoodStart(Version1, o, [], login)
    ensures Opening(Stream(EncodeMessage(Version1, login, o.isObject) + tail, end), o)
         == Some(Entered(Version1, login, Stream(tail, end), V1.DEFAULT_LIMIT))
  {
    var frame := V1.Frame(login.messageType, login.payload);
    VersionsDoNotMix(frame, V1.DEFAULT_LIMIT, tail, end, o);
    V1.RoundTrip(frame, V1.DEFAULT_LIMIT, o.isObject, tail);
    ReadEncoded(Version1, login, V1.DEFAULT_LIMIT, o.isObject, tail, end);
  }

  lemma StartDeliversV2(o: Options, hello: bytes, login: Message, tail: bytes, end: ReadError)
    requires GoodStart(Version2, o, hello, login)
    ensures Opening(Stream(Preface(Version2, hello, login, o.isObject) + tail, end), o)
         == Some(Entered(Version2, login, Stream(tail, end), NegotiatedLimit(o.hello(hello).value)))
  {
    hide Opening, HelloAndLogin, EncodeMessage, EncodeFrame, MessageOf, Beyond, V2.ReadResult, AfterFrame;
    var all := Preface(Version2, hello, login, o.isObject) + tail;
    var t1 := EncodeMessage(Version2, login, o.isObject) + tail;
    var t0 := EncodeFrame(V2.Hello(V2.CLIENT_HELLO, hello), o.isObject) + t1;
    assert V2.MAGIC <= all && all[|V2.MAGIC|..] == t0;
    HelloIsNotMessage(hello, t1, o.isObject);
    ReadHello(hello, o.isObject, t1, end);
    ReadEncoded(Version2, login, NegotiatedLimit(o.hello(hello).value), o.isObject, tail, end);
    HelloThenLogin(o, hello, login, t1, tail, end);
    OpeningOf(Stream(all, end), o, Stream(t0, end));
  }

  lemma OpeningOf(s: Stream, o: Options, handed: Stream)
    requires o.v2Enabled && V2.MAGIC <= s.data && handed == Stream(s.data[|V2.MAGIC|..], s.end)
    requires |handed.data| >= V2.HEADER_SIZE && Value(handed.data[..2]) != V2.MESSAGE
    ensures Opening(s, o) == HelloAndLogin(handed, o)
  {
    hide HelloAndLogin;
  }

  lemma HelloThenLogin(o: Options, hello: bytes, login: Message, t1: bytes, tail: bytes, end: ReadError)
    requires o.hello(hello).Ok? && login.messageType == LOGIN
    requires var s := Stream(EncodeFrame(V2.Hello(V2.CLIENT_HELLO, hello), o.isObject) + t1, end);
             V2.ReadResult(s, V2.DEFAULT_LIMIT, o.isObject) == Result.Ok(V2.Hello(V2.CLIENT_HELLO, hello))
             && AfterFrame(s, V2.DEFAULT_LIMIT, o.isObject) == Stream(t1, end)
    requires var limit := NegotiatedLimit(o.hello(hello).value);
             MessageOf(Version2, Stream(t1, end), limit, o.isObject) == Result.Ok(login)
             && Beyond(Version2, Stream(t1, end), limit, o.isObject) == Stream(tail, end)
    ensures HelloAndLogin(Stream(EncodeFrame(V2.Hello(V2.CLIENT_HELLO, hello), o.isObject) + t1, end), o)
         == Some(Entered(Version2, login, Stream(tail, end), NegotiatedLimit(o.hello(hello).value)))
  {
    hide V2.ReadResult, AfterFrame, MessageOf, Beyond, EncodeFrame;
  }

  lemma HelloIsNotMessage(hello: bytes, rest: bytes, isObject: bytes -> bool)
    requires V2.Sendable(V2.Hello(V2.CLIENT_HELLO, hello), V2.DEFAULT_LIMIT, isObject)
    ensures var raw := EncodeFrame(V2.Hello(V2.CLIENT_HELLO, hello), isObject) + rest;
            |raw| >= V2.HEADER_SIZE && Value(raw[..2]) == V2.CLIENT_HELLO
  {
    var raw := EncodeFrame(V2.Hello(V2.CLIENT_HELLO, hello), isObject) + rest;
    V2.HeaderRoundTrip(V2.CLIENT_HELLO, hello, V2.DEFAULT_LIMIT, rest);
    assert raw[..2] == BigEndian(V2.CLIENT_HELLO, 2);
    Widths();
    ValueOfBigEndianFits(V2.CLIENT_HELLO, 2);
  }

  lemma DeliveredAfterStart(v: Version, o: Options, verdict: bytes -> Verdict, hello: bytes, login: Message,
                            tail: bytes, end: ReadError)
    requires GoodStart(v, o, hello, login)
    ensures Delivered(Stream(Preface(v, hello, login, o.isObject) + tail, end), o, verdict)
         == ServedAfter(Entered(v, login, Stream(tail, end), SessionLimit(v, o, hello)), o.isObject,
                        verdict(login.payload))
  {
    hide Opening, ServedAfter, Preface, GoodStart;
    StartDelivers(v, o, hello, login, tail, end);
  }

  lemma AgreedLimit(v: Version, o: Options, hello: bytes, login: Message)
    requires GoodStart(v, o, hello, login)
    ensures v.Version2? ==> o.hello(hello).Ok?
    ensures Agreeable(v, SessionLimit(v, o, hello)) && Agreeable(v, DefaultLimit(v))
  {}

  lemma PrefixCons(m: Message, a: seq<Message>, b: seq<Message>)
    requires a <= b
    ensures [m] + a <= [m] + b
  {}

  /** The session law in plain text, on either wire: from any part of the bytes sent the messages
      that arrive are the first ones sent; from all of them, they are all up to the first over the
      negotiated limit, which ends the session. */
  lemma PlainSessionDelivers(v: Version, o: Options, verdict: bytes -> Verdict, hello: bytes, login: Message,
                             ms: seq<Message>, end: ReadError, arrived: bytes)
    requires GoodStart(v, o, hello, login) && AllSendable(v, ms, o.isObject) && verdict(login.payload).Plain?
    requires arrived <= EncodeAll(v, ms, o.isObject)
    ensures var got := Delivered(Stream(Preface(v, hello, login, o.isObject) + arrived, end), o, verdict);
            var within := ms[..Fitting(v, ms, SessionLimit(v, o, hello))];
            got <= [login] + within && (arrived == EncodeAll(v, ms, o.isObject) ==> got == [login] + within)
  {
    hide GoodStart, Delivered, Preface, AllSendable, EncodeAll, Served, Agreeable, SessionLimit;
    AgreedLimit(v, o, hello, login);
    var limit := SessionLimit(v, o, hello);
    DeliveredAfterStart(v, o, verdict, hello, login, arrived, end);
    ServedFromPart(v, ms, arrived, limit, o.isObject, end);
    PrefixCons(login, Served(v, Stream(arrived, end), limit, o.isObject), ms[..Fitting(v, ms, limit)]);
  }

  /** At the default limit everything that can be sent fits. */
  lemma DefaultFitsAll(v: Version, ms: seq<Message>, isObject: bytes -> bool)
    requires AllSendable(v, ms, isObject)
    ensures Fitting(v, ms, DefaultLimit(v)) == |ms|
  {
    forall k | 0 <= k < |ms| ensures WithinLimit(v, ms[k], DefaultLimit(v)) {
      assert Sendable(v, ms[k], isObject);
    }
  }

  /** Behind a cipher that lets `plain` through, a first part of what was sent. */
  lemma CipherServes(v: Version, o: Options, verdict: bytes -> Verdict, hello: bytes, login: Message, ms: seq<Message>,
                     end: ReadError, arrived: bytes)
    requires GoodStart(v, o, hello, login) && AllSendable(v, ms, o.isObject) && verdict(login.payload).Encrypted?
    requires Deciphered(v, Stream(arrived, end), verdict(login.payload)).data <= EncodeAll(v, ms, o.isObject)
    ensures var got := Delivered(Stream(Preface(v, hello, login, o.isObject) + arrived, end), o, verdict);
            var plain := Deciphered(v, Stream(arrived, end), verdict(login.payload)).data;
            got <= [login] + ms && (plain == EncodeAll(v, ms, o.isObject) ==> got == [login] + ms)
  {
    hide GoodStart, Delivered, Preface, AllSendable, EncodeAll, Served, Agreeable, SessionLimit, Deciphered,
        DefaultLimit;
    var behind := Deciphered(v, Stream(arrived, end), verdict(login.payload));
    DeliveredAfterStart(v, o, verdict, hello, login, arrived, end);
    AgreedLimit(v, o, hello, login);
    DefaultFitsAll(v, ms, o.isObject);
    ServedFromPart(v, ms, behind.data, DefaultLimit(v), o.isObject, behind.end);
    assert ms[..|ms|] == ms && behind == Stream(behind.data, behind.end);
    PrefixCons(login, Served(v, behind, DefaultLimit(v), o.isObject), ms);
  }

  /** What a client of wire v2 sends sealed: `chunks` is any way of cutting its bytes into AEAD frames. */
  ghost predicate Seals(c: Cipher, start: bytes, chunks: seq<bytes>, sent: bytes) {
    Lawful(c) && |start| == NONCE_SIZE && Aead.Fits(chunks) && Flatten(chunks) == sent
  }

  /** The session law over the AEAD channel: from any part of the bytes sent, however cut, the
      messages that arrive are the first ones sent; from all of the bytes, they are all of
      them. A message may span two AEAD frames and an AEAD frame several messages. */
  lemma SealedSessionDelivers(o: Options, verdict: bytes -> Verdict, hello: bytes, login: Message, ms: seq<Message>,
                              end: ReadError, start: bytes, chunks: seq<bytes>, arrived: bytes)
    requires GoodStart(Version2, o, hello, login) && AllSendable(Version2, ms, o.isObject)
    requires verdict(login.payload).Encrypted?
    requires Seals(verdict(login.payload).cipher, start, chunks, EncodeAll(Version2, ms, o.isObject))
    requires arrived <= start + SealFrames(verdict(login.payload).cipher, start, 0, chunks)
    ensures var got := Delivered(Stream(Preface(Version2, hello, login, o.isObject) + arrived, end), o, verdict);
            && got <= [login] + ms
            && (arrived == start + SealFrames(verdict(login.payload).cipher, start, 0, chunks) ==> got == [login] + ms)
  {
    hide GoodStart, Delivered, Preface, AllSendable, EncodeAll;
    ChannelDelivers(verdict(login.payload).cipher, start, chunks, arrived);
    CipherServes(Version2, o, verdict, hello, login, ms, end, arrived);
  }

  /** The session law over the stream cipher of wire v1. */
  lemma MaskedSessionDelivers(o: Options, verdict: bytes -> Verdict, login: Message, ms: seq<Message>, end: ReadError,
                              iv: bytes, arrived: bytes)
    requires GoodStart(Version1, o, [], login) && AllSendable(Version1, ms, o.isObject)
    requires verdict(login.payload).Encrypted? && Reversible(verdict(login.payload).feedback) && |iv| == IV_SIZE
    requires arrived <= iv + Masked(verdict(login.payload).feedback, iv, [], EncodeAll(Version1, ms, o.isObject))
    ensures var got := Delivered(Stream(Preface(Version1, [], login, o.isObject) + arrived, end), o, verdict);
            var sent := iv + Masked(verdict(login.payload).feedback, iv, [], EncodeAll(Version1, ms, o.isObject));
            got <= [login] + ms && (arrived == sent ==> got == [login] + ms)
  {
    hide GoodStart, Delivered, Preface, AllSendable, EncodeAll;
    MaskedDelivers(verdict(login.payload).feedback, iv, EncodeAll(Version1, ms, o.isObject), arrived);
    CipherServes(Version1, o, verdict, [], login, ms, end, arrived);
  }

  // What else a client may send.

  /** A message of any other type ends the loop: what came before is served, and nothing after. */
  lemma {:induction false} ServedUpTo(v: Version, ms: seq<Message>, other: Message, rest: bytes, limit: int,
                                      isObject: bytes -> bool, end: ReadError)
    requires AllSendable(v, ms, isObject) && Sendable(v, other, isObject) && !Proper(other) && Agreeable(v, limit)
    ensures Served(v, Stream(EncodeAll(v, ms, isObject) + EncodeMessage(v, other, isObject) + rest, end), limit,
                   isObject)
         == ms[..Fitting(v, ms, limit)]
  {
    hide EncodeMessage, Sendable, Served, WithinLimit, Agreeable;
    var behind := EncodeMessage(v, other, isObject) + rest;
    if ms == [] {
      assert EncodeAll(v, ms, isObject) + EncodeMessage(v, other, isObject) + rest == behind;
      OtherNotServed(v, other, limit, isObject, rest, end);
    } else {
      var first, later := EncodeMessage(v, ms[0], isObject), EncodeAll(v, ms[1..], isObject);
      ServedFirst(v, ms[0], limit, isObject, later + EncodeMessage(v, other, isObject) + rest, end);
      ServedUpTo(v, ms[1..], other, rest, limit, isObject, end);
      Regroup(first, later, EncodeMessage(v, other, isObject), rest);
    }
  }

  lemma Regroup(a: bytes, b: bytes, c: bytes, d: bytes)
    ensures (a + b) + c + d == a + (b + c + d)
  {}

  lemma OtherNotServed(v: Version, other: Message, limit: int, isObject: bytes -> bool, rest: bytes, end: ReadError)
    requires Sendable(v, other, isObject) && !Proper(other) && Agreeable(v, limit)
    ensures Served(v, Stream(EncodeMessage(v, other, isObject) + rest, end), limit, isObject) == []
  {
    hide Sendable, EncodeMessage, MessageOf, Beyond;
    if WithinLimit(v, other, limit) {
      ReadEncoded(v, other, limit, isObject, rest, end);
    } else {
      NotServed(v, other, limit, isObject, rest, end);
    }
  }

  /** `tail` is what is on the wire when a client sends `plain` behind a login so judged. */
  ghost predicate Carries(v: Version, verdict: Verdict, tail: bytes, plain: bytes) {
    match verdict
    case Denied => false
    case Plain => tail == plain
    case Encrypted(f, c) =>
      if v.Version1? then
        Reversible(f) && exists iv: bytes :: |iv| == IV_SIZE && tail == iv + Masked(f, iv, [], plain)
      else
        exists start: bytes, chunks: seq<bytes> ::
          Seals(c, start, chunks, plain) && tail == start + SealFrames(c, start, 0, chunks)
  }

  lemma CarriedIsRead(v: Version, verdict: Verdict, tail: bytes, plain: bytes, end: ReadError)
    requires Carries(v, verdict, tail, plain) && verdict.Encrypted?
    ensures Deciphered(v, Stream(tail, end), verdict).data == plain
  {
    if v.Version1? {
      var iv: bytes :| |iv| == IV_SIZE && tail == iv + Masked(verdict.feedback, iv, [], plain);
      MaskedDelivers(verdict.feedback, iv, plain, tail);
    } else {
      var start: bytes, chunks: seq<bytes> :|
        Seals(verdict.cipher, start, chunks, plain) && tail == start + SealFrames(verdict.cipher, start, 0, chunks);
      ChannelDelivers(verdict.cipher, start, chunks, tail);
    }
  }

  /** In every session, in plain text or behind either cipher, a message other than a ping, a new proxy or
      a closed one ends it: the messages before are served, and nothing that follows. */
  lemma OtherTypeEnds(v: Version, o: Options, verdict: bytes -> Verdict, hello: bytes, login: Message,
                      ms: seq<Message>, other: Message, rest: bytes, tail: bytes, end: ReadError)
    requires GoodStart(v, o, hello, login) && AllSendable(v, ms, o.isObject)
    requires Sendable(v, other, o.isObject) && other.messageType.name !in {"ping", "new-proxy", "close-proxy"}
    requires Carries(v, verdict(login.payload), tail,
                     EncodeAll(v, ms, o.isObject) + EncodeMessage(v, other, o.isObject) + rest)
    ensures var limit := if verdict(login.payload).Plain? then SessionLimit(v, o, hello) else DefaultLimit(v);
            Delivered(Stream(Preface(v, hello, login, o.isObject) + tail, end), o, verdict) ==
            [login] + ms[..Fitting(v, ms, limit)]
  {
    hide GoodStart, Delivered, Preface, AllSendable, EncodeAll, EncodeMessage, Sendable, Served, Agreeable,
         SessionLimit, Deciphered, DefaultLimit;
    AgreedLimit(v, o, hello, login);
    DeliveredAfterStart(v, o, verdict, hello, login, tail, end);
    var plain := EncodeAll(v, ms, o.isObject) + EncodeMessage(v, other, o.isObject) + rest;
    var judged := verdict(login.payload);
    if judged.Plain? {
      ServedUpTo(v, ms, other, rest, SessionLimit(v, o, hello), o.isObject, end);
    } else {
      CarriedIsRead(v, judged, tail, plain, end);
      var behind := Deciphered(v, Stream(tail, end), judged);
      ServedUpTo(v, ms, other, rest, DefaultLimit(v), o.isObject, behind.end);
      assert behind == Stream(plain, behind.end);
    }
  }

  /** Whatever the bytes of a connection: only a login can be served first, if it is accepted, and then
      only messages of the control loop. */
  lemma DeliversOnly(s: Stream, o: Options, verdict: bytes -> Verdict)
    ensures var got := Delivered(s, o, verdict);
            got == [] ||
            (&& got[0].messageType.name == "login" && !verdict(got[0].payload).Denied?
             && forall k :: 1 <= k < |got| ==> got[k].messageType.name in {"ping", "new-proxy", "close-proxy"})
  {
    match Opening(s, o)
    case None =>
    case Some(e) =>
      var judged := verdict(e.login.payload);
      OpensWithLogin(s, o, e);
      if judged.Plain? {
        ServedAreProper(e.version, e.after, e.limit, o.isObject);
      } else if judged.Encrypted? {
        ServedAreProper(e.version, Deciphered(e.version, e.after, judged), DefaultLimit(e.version), o.isObject);
      }
  }

  lemma OpensWithLogin(s: Stream, o: Options, e: Entered)
    requires Opening(s, o) == Some(e)
    ensures e.login.messageType.name == "login"
  {
    hide MessageOf, Beyond, Negotiated, AfterFrame, FirstFrameType;
  }

  lemma {:induction false} ServedAreProper(v: Version, s: Stream, limit: int, isObject: bytes -> bool)
    ensures forall k :: 0 <= k < |Served(v, s, limit, isObject)| ==>
              Served(v, s, limit, isObject)[k].messageType.name in {"ping", "new-proxy", "close-proxy"}
    decreases |s.data|
  {
    hide MessageOf, Beyond;
    var m := MessageOf(v, s, limit, isObject);
    if m.Ok? && Handled(m.value) {
      ServedStep(v, s, limit, isObject);
      ServedAreProper(v, Beyond(v, s, limit, isObject), limit, isObject);
    }
  }

  // The negotiated limit.

  predicate AllWithin(v: Version, ms: seq<Message>, limit: int) {
    forall k :: 0 <= k < |ms| ==> WithinLimit(v, ms[k], limit)
  }

  /** Whatever the bytes: in plain text every message served respects the session's limit, behind a
      cipher only the default one. */
  lemma LimitAppliedTo(s: Stream, o: Options, verdict: bytes -> Verdict, e: Entered)
    requires Opening(s, o) == Some(e) && !verdict(e.login.payload).Denied?
    ensures var limit := if verdict(e.login.payload).Plain? then e.limit else DefaultLimit(e.version);
            Delivered(s, o, verdict) != [] && AllWithin(e.version, Delivered(s, o, verdict)[1..], limit)
  {
    var judged := verdict(e.login.payload);
    if judged.Plain? {
      ServedWithinLimit(e.version, e.after, e.limit, o.isObject);
    } else {
      ServedWithinLimit(e.version, Deciphered(e.version, e.after, judged), DefaultLimit(e.version), o.isObject);
    }
  }

  /** The bytes of a v2 session's messages, as its login was judged. */
  function Sent(verdict: Verdict, ms: seq<Message>, isObject: bytes -> bool, start: bytes, chunks: seq<bytes>): bytes {
    match verdict
    case Encrypted(_, c) => start + SealFrames(c, start, 0, chunks)
    case _ => EncodeAll(Version2, ms, isObject)
  }

  /** The negotiated limit holds for all messages served if and only if the session stays in plain
      text or the client keeps to the limit of its own accord. With the default limit it always does. */
  lemma LimitHolds(o: Options, verdict: bytes -> Verdict, hello: bytes, login: Message, ms: seq<Message>,
                   end: ReadError, start: bytes, chunks: seq<bytes>)
    requires GoodStart(Version2, o, hello, login) && AllSendable(Version2, ms, o.isObject)
    requires !verdict(login.payload).Denied?
    requires verdict(login.payload).Encrypted? ==>
               Seals(verdict(login.payload).cipher, start, chunks, EncodeAll(Version2, ms, o.isObject))
    ensures var limit := SessionLimit(Version2, o, hello);
            var sent := Sent(verdict(login.payload), ms, o.isObject, start, chunks);
            var got := Delivered(Stream(Preface(Version2, hello, login, o.isObject) + sent, end), o, verdict);
            && got != []
            && (AllWithin(Version2, got[1..], limit) <==>
                verdict(login.payload).Plain? || AllWithin(Version2, ms, limit))
            && (limit == V2.DEFAULT_LIMIT ==> AllWithin(Version2, ms, limit))
  {
    hide GoodStart, Delivered, Preface, AllSendable, EncodeAll, SessionLimit;
    AgreedLimit(Version2, o, hello, login);
    var judged, limit := verdict(login.payload), SessionLimit(Version2, o, hello);
    var sent := Sent(judged, ms, o.isObject, start, chunks);
    DefaultFitsAll(Version2, ms, o.isObject);
    if judged.Plain? {
      PlainSessionDelivers(Version2, o, verdict, hello, login, ms, end, sent);
      assert ([login] + ms[..Fitting(Version2, ms, limit)])[1..] == ms[..Fitting(Version2, ms, limit)];
    } else {
      SealedSessionDelivers(o, verdict, hello, login, ms, end, start, chunks, sent);
      assert ([login] + ms)[1..] == ms;
    }
  }

  /** A JSON object of `n + 2` octets. */
  function Padded(n: nat): bytes { ['{' as int] + seq(n, _ => ' ' as int) + ['}' as int] }

  predicate Braced(payload: bytes) {
    |payload| >= 2 && payload[0] == '{' as int && payload[|payload| - 1] == '}' as int
  }

  /** A server that agrees on payloads of at most 64 octets. */
  const SMALL := Options(false, true, (_: bytes) => Result.Ok(64), Braced)

  const FIRST := Message(LOGIN, Padded(0))
  const LONG := Message(PING, Padded(98))

  /** A message of 102 octets is served under a limit of 64 once the session is encrypted, and ends
      the session in plain text. */
  lemma LimitIsLost(f: Feedback, c: Cipher, start: bytes, end: ReadError)
    requires Lawful(c) && |start| == NONCE_SIZE
    ensures var preface := Preface(Version2, Padded(0), FIRST, Braced);
            var raw := EncodeAll(Version2, [LONG], Braced);
            var sealed := start + SealFrames(c, start, 0, [raw]);
            && SessionLimit(Version2, SMALL, Padded(0)) == 64 && !WithinLimit(Version2, LONG, 64)
            && Delivered(Stream(preface + sealed, end), SMALL, (_: bytes) => Encrypted(f, c)) == [FIRST, LONG]
            && Delivered(Stream(preface + raw, end), SMALL, (_: bytes) => Plain) == [FIRST]
  {
    hide Delivered, Preface, EncodeAll, SealFrames;
    var raw := EncodeAll(Version2, [LONG], Braced);
    LongIsSendable();
    LongIsShort(Braced);
    assert Flatten([raw]) == raw by { assert raw + [] == raw; }
    SealedSessionDelivers(SMALL, (_: bytes) => Encrypted(f, c), Padded(0), FIRST, [LONG], end, start, [raw],
                          start + SealFrames(c, start, 0, [raw]));
    PlainSessionDelivers(Version2, SMALL, (_: bytes) => Plain, Padded(0), FIRST, [LONG], end, raw);
  }

  lemma LongIsSendable()
    ensures GoodStart(Version2, SMALL, Padded(0), FIRST) && AllSendable(Version2, [LONG], Braced)
  {}

  lemma LongIsShort(isObject: bytes -> bool)
    requires AllSendable(Version2, [LONG], isObject)
    ensures |EncodeAll(Version2, [LONG], isObject)| <= MAX_PLAINTEXT
  {
    assert [LONG][0] == LONG;
    V2.RoundTrip(Frame(LONG), V2.DEFAULT_LIMIT, isObject, []);
  }
}
