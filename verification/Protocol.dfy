/**
 The typed message codec: to_json appends a message's fields to a JSON array, from_json
 reads them back by position. WelcomeDetails is an object nested inside a WELCOME.
 */
module Protocol {
  import opened Faults
  import opened JsonValues

  /** MessageTypes has enumerators up to 21 and no fixed type: its values fit five bits. */
  type MessageTag = x: int | 0 <= x < 32

  const HELLO: MessageTag := 1
  const WELCOME: MessageTag := 2
  const ABORT: MessageTag := 3
  const PING: MessageTag := 4
  const PONG: MessageTag := 5
  const ERROR: MessageTag := 9
  const CALL: MessageTag := 10

  datatype ProtocolMessage =
    | Hello(realm: string, details: Json)
    | Welcome(sessionId: int32, details: Json)
    | Abort(reason: string, details: Json)
    | Ping(details: Json)
    | Pong(details: Json)
    | Error(requestType: MessageTag, requestId: int32, error: string, details: Json)
  {
    /** The tag MessageTypes declares for this kind. */
    function DeclaredTag(): MessageTag {
      match this
      case Hello(_, _) => HELLO
      case Welcome(_, _) => WELCOME
      case Abort(_, _) => ABORT
      case Ping(_) => PING
      case Pong(_) => PONG
      case Error(_, _, _, _) => ERROR
    }
  }

  datatype Kind = HelloKind | WelcomeKind | AbortKind | PingKind | PongKind | ErrorKind

  function KindOf(m: ProtocolMessage): Kind {
    match m
    case Hello(_, _) => HelloKind
    case Welcome(_, _) => WelcomeKind
    case Abort(_, _) => AbortKind
    case Ping(_) => PingKind
    case Pong(_) => PongKind
    case Error(_, _, _, _) => ErrorKind
  }

  /** The elements to_json pushes; Pong pushes the tag of Ping. */
  function Encode(m: ProtocolMessage): seq<Json> {
    match m
    case Hello(realm, details) => [JInt(HELLO), JString(realm), details]
    case Welcome(sessionId, details) => [JInt(WELCOME), JInt(sessionId), details]
    case Abort(reason, details) => [JInt(ABORT), JString(reason), details]
    case Ping(details) => [JInt(PING), details]
    case Pong(details) => [JInt(PING), details]
    case Error(requestType, requestId, error, details) =>
      [JInt(ERROR), JInt(requestType), JInt(requestId), JString(error), details]
  }

  /** A JSON array that push_back extends in place. */
  class JsonArray {
    var items: seq<Json>

    constructor ()
      ensures items == []
    {
      items := [];
    }

    method PushBack(j: Json)
      modifies this
      ensures items == old(items) + [j]
    {
      items := items + [j];
    }
  }

  method ToJson(j: JsonArray, m: ProtocolMessage)
    modifies j
    ensures j.items == old(j.items) + Encode(m)
  {
    match m {
      case Hello(realm, details) =>
        j.PushBack(JInt(HELLO));
        j.PushBack(JString(realm));
        j.PushBack(details);
      case Welcome(sessionId, details) =>
        j.PushBack(JInt(WELCOME));
        j.PushBack(JInt(sessionId));
        j.PushBack(details);
      case Abort(reason, details) =>
        j.PushBack(JInt(ABORT));
        j.PushBack(JString(reason));
        j.PushBack(details);
      case Ping(details) =>
        j.PushBack(JInt(PING));
        j.PushBack(details);
      case Pong(details) =>
        j.PushBack(JInt(PING));
        j.PushBack(details);
      case Error(requestType, requestId, error, details) =>
        j.PushBack(JInt(ERROR));
        j.PushBack(JInt(requestType));
        j.PushBack(JInt(requestId));
        j.PushBack(JString(error));
        j.PushBack(details);
    }
  }

  /** const operator[]: throws on a value that is not an array, is undefined past its end. */
  function At(j: Json, index: nat): Result<Json> {
    if !j.JArray? then Err(TypeMismatch)
    else if index < |j.items| then Ok(j.items[index])
    else Err(Undefined)
  }

  /** Conversion to the enumeration, defined only for values it can hold. */
  function GetTag(j: Json): Result<MessageTag> {
    match j
    case JInt(n) => if ToUint32(n) < 32 then Ok(ToUint32(n)) else Err(Undefined)
    case JFloat(r) => if 0 <= Truncate(r) < 32 then Ok(Truncate(r)) else Err(Undefined)
    case _ => Err(TypeMismatch)
  }

  function GetMessageType(j: Json): Result<MessageTag> {
    var field :- At(j, 0);
    GetTag(field)
  }

  /** Missing details are stored as {}. */
  function OrEmpty(details: Json): Json {
    if details.JNull? then EMPTY_OBJECT else details
  }

  /** from_json of the given message class; the tag itself is not checked. */
  function Decode(kind: Kind, j: Json): Result<ProtocolMessage> {
    match kind
    case HelloKind =>
      var realmField :- At(j, 1);
      var realm :- GetString(realmField);
      var details :- At(j, 2);
      Ok(Hello(realm, OrEmpty(details)))
    case WelcomeKind =>
      var idField :- At(j, 1);
      var sessionId :- GetInt32(idField);
      var details :- At(j, 2);
      Ok(Welcome(sessionId, OrEmpty(details)))
    case AbortKind =>
      var reasonField :- At(j, 1);
      var reason :- GetString(reasonField);
      var details :- At(j, 2);
      Ok(Abort(reason, OrEmpty(details)))
    case PingKind =>
      var details :- At(j, 1);
      Ok(Ping(OrEmpty(details)))
    case PongKind =>
      var details :- At(j, 1);
      Ok(Pong(OrEmpty(details)))
    case ErrorKind =>
      var typeField :- At(j, 1);
      var requestType :- GetTag(typeField);
      var idField :- At(j, 2);
      var requestId :- GetInt32(idField);
      var errorField :- At(j, 3);
      var error :- GetString(errorField);
      var details :- At(j, 4);
      Ok(Error(requestType, requestId, error, OrEmpty(details)))
  }

  /** How many elements the encoding of each kind has. */
  function ElementCount(kind: Kind): nat {
    match kind
    case PingKind => 2
    case PongKind => 2
    case ErrorKind => 5
    case _ => 3
  }

  /** from_json needs all elements, and looks neither at the tag nor beyond them. */
  lemma DecodeReads(kind: Kind, items: seq<Json>, tag: Json, rest: seq<Json>)
    ensures Decode(kind, JArray(items)).Ok? ==> |items| >= ElementCount(kind)
    ensures |items| >= ElementCount(kind) ==>
      Decode(kind, JArray([tag] + items[1..ElementCount(kind)] + rest)) == Decode(kind, JArray(items))
    ensures forall m: ProtocolMessage :: KindOf(m) == kind ==> |Encode(m)| == ElementCount(kind)
  {
    if |items| >= ElementCount(kind) {
      var other := [tag] + items[1..ElementCount(kind)] + rest;
      assert forall k :: 1 <= k < ElementCount(kind) ==> At(JArray(other), k) == At(JArray(items), k);
    }
  }

  function Normalised(m: ProtocolMessage): ProtocolMessage {
    m.(details := OrEmpty(m.details))
  }

  /** Decoding what was encoded gives the message back, with {} for null details, and that
      normal form is what every later round trip preserves. */
  lemma CodecRoundTrip(m: ProtocolMessage)
    ensures Decode(KindOf(m), JArray(Encode(m))) == Ok(Normalised(m))
    ensures Decode(KindOf(m), JArray(Encode(Normalised(m)))) == Ok(Normalised(m))
  {
  }

  /** Whatever decodes is a normal form, and re-encoding it decodes to the same message. */
  lemma DecodedIsStable(kind: Kind, j: Json)
    requires Decode(kind, j).Ok?
    ensures var m := Decode(kind, j).value;
      KindOf(m) == kind && !m.details.JNull? && Decode(kind, JArray(Encode(m))) == Ok(m)
  {
  }

  /** Two messages share an encoding exactly when they are equal or a Ping and a Pong with
      the same details. */
  lemma EncodingCollides(a: ProtocolMessage, b: ProtocolMessage)
    ensures Encode(a) == Encode(b) <==>
      || a == b
      || ((a.Ping? || a.Pong?) && (b.Ping? || b.Pong?) && a.details == b.details)
  {
  }

  /** The encoded tag is the declared one for every kind but Pong. */
  lemma Discriminated(m: ProtocolMessage)
    ensures GetMessageType(JArray(Encode(m))).Ok?
    ensures GetMessageType(JArray(Encode(m))).value == m.DeclaredTag() <==> !m.Pong?
    ensures m.Pong? ==> GetMessageType(JArray(Encode(m))).value == PING
  {
  }

  // ----------------------------------------------------------- WelcomeDetails

  datatype WelcomeDetails = WelcomeDetails(
    sessionTimeout: int32, pingInterval: int32, pongTimeout: int32, eventsTopic: string)

  /** A JSON object that operator[] extends in place. */
  class JsonObject {
    var members: map<string, Json>

    constructor (members: map<string, Json>)
      ensures this.members == members
    {
      this.members := members;
    }

    method Set(key: string, j: Json)
      modifies this
      ensures members == old(members)[key := j]
    {
      members := members[key := j];
    }
  }

  function DetailMembers(d: WelcomeDetails): map<string, Json> {
    map[
      "session_timeout" := JInt(d.sessionTimeout),
      "ping_interval" := JInt(d.pingInterval),
      "pong_max_wait_time" := JInt(d.pongTimeout),
      "events_topic" := JString(d.eventsTopic)]
  }

  method DetailsToJson(j: JsonObject, d: WelcomeDetails)
    modifies j
    ensures j.members == old(j.members) + DetailMembers(d)
  {
    j.Set("session_timeout", JInt(d.sessionTimeout));
    j.Set("ping_interval", JInt(d.pingInterval));
    j.Set("pong_max_wait_time", JInt(d.pongTimeout));
    j.Set("events_topic", JString(d.eventsTopic));
    DistinctKeys();
  }

  /** at(key): throws on a value that is not an object and on a missing key. */
  function Member(j: Json, key: string): Result<Json> {
    if !j.JObject? then Err(TypeMismatch)
    else if key in j.members then Ok(j.members[key])
    else Err(OutOfRange)
  }

  function DecodeDetails(j: Json): Result<WelcomeDetails> {
    var timeoutField :- Member(j, "session_timeout");
    var sessionTimeout :- GetInt32(timeoutField);
    var intervalField :- Member(j, "ping_interval");
    var pingInterval :- GetInt32(intervalField);
    var pongField :- Member(j, "pong_max_wait_time");
    var pongTimeout :- GetInt32(pongField);
    var topicField :- Member(j, "events_topic");
    var eventsTopic :- GetString(topicField);
    Ok(WelcomeDetails(sessionTimeout, pingInterval, pongTimeout, eventsTopic))
  }

  /** Details survive both levels, also when they were merged over other members. */
  lemma NestedDetailsRoundTrip(sessionId: int32, d: WelcomeDetails, others: map<string, Json>)
    ensures var m := Welcome(sessionId, JObject(others + DetailMembers(d)));
      && Decode(WelcomeKind, JArray(Encode(m))) == Ok(m)
      && DecodeDetails(Decode(WelcomeKind, JArray(Encode(m))).value.details) == Ok(d)
  {
    DistinctKeys();
  }

  lemma DistinctKeys()
    ensures "session_timeout" != "ping_interval" && "session_timeout" != "pong_max_wait_time"
    ensures "session_timeout" != "events_topic" && "ping_interval" != "pong_max_wait_time"
    ensures "ping_interval" != "events_topic" && "pong_max_wait_time" != "events_topic"
  {
    assert "session_timeout"[0] == 's' && "ping_interval"[0] == 'p' && "events_topic"[0] == 'e';
    assert "pong_max_wait_time"[1] == 'o' && "ping_interval"[1] == 'i' && "pong_max_wait_time"[0] == 'p';
  }
}
