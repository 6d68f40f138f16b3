/** The message types both wire versions share, and the error categories of the wire stage. */
module Messages {
  import opened Wrappers
  import opened Bytes
  import opened Streams

  datatype Category =
    | VersionNotAccepted | NegotiationFrameInvalid | CapabilityMismatch | LengthExceeded | LengthInvalid
    | PayloadTruncated | TypeInvalid | FrameTypeInvalid | FlagsUnsupported | JsonInvalid | TransportFailure

  /** `CleanEnd` is io.EOF: the stream ended on a frame boundary. */
  datatype WireError = CleanEnd | Protocol(category: Category)

  datatype Result<+T> = Ok(value: T) | Err(error: WireError)

  datatype MessageType = MessageType(name: string, v1Byte: byte, v2Id: nat)

  const LOGIN := MessageType("login", 'o' as int, 1)
  const LOGIN_RESPONSE := MessageType("login-response", '1' as int, 2)
  const NEW_PROXY := MessageType("new-proxy", 'p' as int, 3)
  const NEW_PROXY_RESPONSE := MessageType("new-proxy-response", '2' as int, 4)
  const CLOSE_PROXY := MessageType("close-proxy", 'c' as int, 5)
  const NEW_WORK_CONN := MessageType("new-work-conn", 'w' as int, 6)
  const REQ_WORK_CONN := MessageType("req-work-conn", 'r' as int, 7)
  const START_WORK_CONN := MessageType("start-work-conn", 's' as int, 8)
  const PING := MessageType("ping", 'h' as int, 11)
  const PONG := MessageType("pong", '4' as int, 12)
  const UDP_PACKET := MessageType("udp-packet", 'u' as int, 13)

  const SUPPORTED: seq<MessageType> := [
    LOGIN, LOGIN_RESPONSE, NEW_PROXY, NEW_PROXY_RESPONSE, CLOSE_PROXY, NEW_WORK_CONN,
    REQ_WORK_CONN, START_WORK_CONN, PING, PONG, UDP_PACKET]

  function FirstWhere(table: seq<MessageType>, wanted: MessageType -> bool): (r: Option<MessageType>)
    ensures r.None? ==> forall k :: 0 <= k < |table| ==> !wanted(table[k])
    ensures r.Some? ==> r.value in table && wanted(r.value)
  {
    if table == [] then None
    else if wanted(table[0]) then Some(table[0])
    else FirstWhere(table[1..], wanted)
  }

  function ByName(name: string): Option<MessageType> { FirstWhere(SUPPORTED, (t: MessageType) => t.name == name) }

  function ByV1Byte(value: int): Option<MessageType> {
    FirstWhere(SUPPORTED, (t: MessageType) => t.v1Byte as int == value)
  }

  function ByV2Id(value: nat): Option<MessageType> { FirstWhere(SUPPORTED, (t: MessageType) => t.v2Id == value) }

  lemma FirstWhereUnique(table: seq<MessageType>, wanted: MessageType -> bool, t: MessageType)
    requires wanted(t) && forall a :: a in table && wanted(a) ==> a == t
    ensures FirstWhere(table, wanted) == Some(t) <==> t in table
  {}

  lemma IdTellsType(t: MessageType)
    requires t in SUPPORTED
    ensures t == match t.v2Id
                 case 1 => LOGIN case 2 => LOGIN_RESPONSE case 3 => NEW_PROXY case 4 => NEW_PROXY_RESPONSE
                 case 5 => CLOSE_PROXY case 6 => NEW_WORK_CONN case 7 => REQ_WORK_CONN case 8 => START_WORK_CONN
                 case 11 => PING case 12 => PONG case _ => UDP_PACKET
  {}

  lemma ByteTellsId(t: MessageType)
    requires t in SUPPORTED
    ensures t.v2Id == match t.v1Byte as char
                      case 'o' => 1 case '1' => 2 case 'p' => 3 case '2' => 4 case 'c' => 5 case 'w' => 6
                      case 'r' => 7 case 's' => 8 case 'h' => 11 case '4' => 12 case _ => 13
  {
    IdTellsType(t);
  }

  lemma NameTellsId(t: MessageType)
    requires t in SUPPORTED
    ensures |t.name| >= 4
    ensures t.v2Id == match |t.name|
                      case 5 => 1 case 14 => 2 case 9 => 3 case 18 => 4 case 11 => 5 case 15 => 8 case 10 => 13
                      case 13 => if t.name[0] == 'n' then 6 else 7
                      case _ => if t.name[1] == 'i' then 11 else 12
  {
    IdTellsType(t);
  }

  /** Name, v1 byte and v2 number each identify one entry of the table, so the two wires and
      the code that dispatches on names always mean the same message. */
  lemma LookupsAgree(t: MessageType)
    requires t in SUPPORTED
    ensures ByV1Byte(t.v1Byte as int) == Some(t) && ByV2Id(t.v2Id) == Some(t) && ByName(t.name) == Some(t)
  {
    forall a | a in SUPPORTED && (a.v1Byte == t.v1Byte || a.v2Id == t.v2Id || a.name == t.name)
      ensures a == t
    {
      OneEntry(a, t);
    }
    FirstWhereUnique(SUPPORTED, (m: MessageType) => m.v1Byte as int == t.v1Byte as int, t);
    FirstWhereUnique(SUPPORTED, (m: MessageType) => m.v2Id == t.v2Id, t);
    FirstWhereUnique(SUPPORTED, (m: MessageType) => m.name == t.name, t);
  }

  lemma OneEntry(a: MessageType, t: MessageType)
    requires a in SUPPORTED && t in SUPPORTED
    requires a.v1Byte == t.v1Byte || a.v2Id == t.v2Id || a.name == t.name
    ensures a == t
  {
    IdTellsType(a);
    IdTellsType(t);
    if a.v1Byte == t.v1Byte { ByteTellsId(a); ByteTellsId(t); }
    if a.name == t.name { NameTellsId(a); NameTellsId(t); }
  }

  /** Checks the payload of a message; `isObject` stands for the JSON decoder. */
  function CheckJson(payload: bytes, isObject: bytes -> bool): Option<WireError> {
    if payload == [] || !isObject(payload) then Some(Protocol(JsonInvalid)) else None
  }

  function CheckLength(size: int, limit: int): Option<WireError> {
    if size < 0 then Some(Protocol(LengthInvalid))
    else if size > limit then Some(Protocol(LengthExceeded))
    else None
  }

  /** Reads the payload a header has announced. */
  method ReadPayload(source: Reader, size: nat) returns (r: Result<bytes>)
    requires source.Valid()
    modifies source.Objects()
    ensures source.Valid() && fresh(source.Objects() - old(source.Objects()))
    ensures r.Ok? <==> size <= |old(source.Rest()).data|
    ensures r.Ok? ==> r.value == old(source.Rest()).data[..size]
    ensures r.Ok? ==> source.Rest() == Stream(old(source.Rest()).data[size..], old(source.Rest()).end)
    ensures r.Err? ==> r.error == Protocol(if old(source.Rest()).end in {EOF, UnexpectedEOF}
                                           then PayloadTruncated else TransportFailure)
  {
    ghost var all := source.Rest();
    var payload, e := ReadFull(source, size);
    if e.Some? {
      return Err(Protocol(if e.value == EOF || e.value == UnexpectedEOF then PayloadTruncated else TransportFailure));
    }
    assert all.data[size..] == source.Rest().data;
    return Ok(payload);
  }
}
