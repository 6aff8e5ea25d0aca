/**
 What one inbound message does, on its elements and the numbers of the protocol: how a CALL is
 read and answered, what WELCOME, ABORT and PONG leave behind, which types do nothing.
 */
module MessageLaws {
  import opened Faults
  import opened JsonValues
  import opened Promises
  import opened SessionModel
  import opened SessionMoves

  // -------------------------------------------------------------------- calls

  /** A CALL is read if and only if it has four elements, the second a number and the third a
      string; its arguments are the fourth element as it is, and later elements are ignored. */
  lemma CallReads(fields: seq<Json>)
    ensures ReadCall(fields).Ok? <==> |fields| >= 4 && GetInt32(fields[1]).Ok? && fields[2].JString?
    ensures ReadCall(fields).Ok? ==>
      ReadCall(fields).value == CallRequest(GetInt32(fields[1]).value, fields[2].s, fields[3])
    ensures |fields| < 4 && ReadCall(fields).Err? && ReadCall(fields).fault == TypeMismatch ==>
      |fields| > 1 && (GetInt32(fields[1]).Err? || (|fields| > 2 && !fields[2].JString?))
  {
  }

  /** The session could send a message that needs a session id. */
  predicate CanSend(s: State) {
    s.link.Attached? && s.link.open && !s.link.done && s.sessionId != 0
  }

  /** A CALL of a registered function is answered with what the function makes of the fourth
      element, under the request id of the second. */
  lemma CallIsAnswered(s: State, requestId: int32, operation: string, arguments: Json, rest: seq<Json>)
    requires CanSend(s) && operation in s.operations
    ensures OnMessage(s, [JInt(10), JInt(requestId), JString(operation), arguments] + rest, true)
         == match s.operations[operation](arguments)
            case Some(result) => Effect(s.(wire := s.wire + [[JInt(11), JInt(requestId), result]]), Done)
            case None => Effect(s, Threw(OperationFault))
  {
    var fields := [JInt(10), JInt(requestId), JString(operation), arguments] + rest;
    assert ReadCall(fields) == Ok(CallRequest(requestId, operation, arguments));
  }

  /** What the client thread throws when the answer cannot be sent, by what is missing first. */
  lemma CallCannotBeAnswered(s: State, requestId: int32, operation: string, arguments: Json, delivered: bool)
    requires !CanSend(s) || !delivered
    requires operation in s.operations ==> s.operations[operation](arguments).Some?
    ensures OnMessage(s, [JInt(10), JInt(requestId), JString(operation), arguments], delivered)
         == Effect(s, Threw(if s.link.Detached? || !s.link.open || s.link.done then NoTransport
                            else if s.sessionId == 0 then NoSession else NetworkFault))
  {
    var fields := [JInt(10), JInt(requestId), JString(operation), arguments];
    assert ReadCall(fields) == Ok(CallRequest(requestId, operation, arguments));
  }

  /** A CALL of an unknown name is answered with an ERROR. */
  lemma UnknownCallIsRefused(s: State, requestId: int32, operation: string, arguments: Json, rest: seq<Json>)
    requires CanSend(s) && operation !in s.operations
    ensures var error := [JInt(9), JInt(10), JInt(requestId), JString("ERR_NO_SUCH_OPERATION"), JObject(map[])];
      OnMessage(s, [JInt(10), JInt(requestId), JString(operation), arguments] + rest, true)
      == Effect(s.(wire := s.wire + [error]), Done)
  {
    var fields := [JInt(10), JInt(requestId), JString(operation), arguments] + rest;
    assert ReadCall(fields) == Ok(CallRequest(requestId, operation, arguments));
  }

  // --------------------------------------------------------------- other types

  /** A WELCOME consumed for the first time establishes the session under the id it carries,
      starts the heartbeat's sleep and answers Join. */
  lemma WelcomeEstablishes(s: State, id: uint32, rest: seq<Json>, delivered: bool)
    requires s.phase == Establishing && s.heartbeat.NotStarted? && s.joined.cell.Unset?
    ensures OnMessage(s, [JInt(2), JInt(id)] + rest, delivered)
         == Effect(s.(phase := Established, sessionId := id, heartbeat := Sleeping(s.now),
                      joined := s.joined.(cell := Value(id))), Done)
  {
    var fields := [JInt(2), JInt(id)] + rest;
    assert WelcomeId(fields) == Ok(id);
  }

  /** An ABORT answers Join with its reason, in any phase, and changes nothing else. */
  lemma AbortAnswersJoin(s: State, reason: string, rest: seq<Json>, delivered: bool)
    ensures OnMessage(s, [JInt(3), JString(reason)] + rest, delivered)
         == if s.joined.cell.Unset?
            then Effect(s.(joined := s.joined.(cell := Failed(AbortFault(reason)))), Done)
            else Effect(s, Threw(PromiseAlreadySatisfied))
  {
    var fields := [JInt(3), JString(reason)] + rest;
    assert AbortReason(fields) == Ok(reason);
  }

  /** A PONG fulfils the heartbeat's promise whatever else it carries. */
  lemma PongFulfils(s: State, rest: seq<Json>, delivered: bool)
    ensures OnMessage(s, [JInt(5)] + rest, delivered)
         == if s.pong.cell.Unset?
            then Effect(s.(pong := s.pong.(cell := Value(true))), Done)
            else Effect(s, Threw(PromiseAlreadySatisfied))
  {
  }

  /** Of all messages with a numeric type, 1, 4 and 11 are rejected, 2, 3, 5 and 10 are
      processed, and every other one passes without a trace. */
  lemma OtherTypes(s: State, tag: int32, rest: seq<Json>, delivered: bool)
    requires tag != 2 && tag != 3 && tag != 5 && tag != 10
    ensures OnMessage(s, [JInt(tag)] + rest, delivered)
         == Effect(s, if tag == 1 || tag == 4 || tag == 11 then Threw(ProtocolFault) else Done)
  {
  }

  /** A type that is neither number nor boolean throws and changes nothing. */
  lemma UnreadableType(s: State, tag: Json, rest: seq<Json>, delivered: bool)
    requires tag.JNull? || tag.JString? || tag.JArray? || tag.JObject?
    ensures OnMessage(s, [tag] + rest, delivered) == Effect(s, Threw(TypeMismatch))
  {
  }

  // --------------------------------------------------------------- conversions

  /** Conversion of a floating value drops its fraction towards zero. */
  lemma TruncatesTowardsZero(r: real)
    ensures r >= 0.0 ==> Truncate(r) as real <= r < Truncate(r) as real + 1.0
    ensures r <= 0.0 ==> Truncate(r) as real - 1.0 < r <= Truncate(r) as real
    ensures Truncate(-r) == -Truncate(r)
  {
  }

  /** What converts to an int32, and to which value modulo 2^32. */
  lemma ConvertsToInt32(j: Json)
    ensures GetInt32(j).Ok? <==> j.JInt? || j.JBool? || (j.JFloat? && -0x8000_0000 <= Truncate(j.r) < 0x8000_0000)
    ensures j.JInt? ==> (GetInt32(j).value - j.n) % 0x1_0000_0000 == 0 && (GetUint32(j).value - j.n) % 0x1_0000_0000 == 0
    ensures j.JFloat? && GetInt32(j).Ok? ==> GetInt32(j).value == Truncate(j.r)
    ensures j.JFloat? && GetUint32(j).Ok? ==> GetUint32(j).value == Truncate(j.r)
    ensures GetUint32(j).Ok? <==> j.JInt? || j.JBool? || (j.JFloat? && 0 <= Truncate(j.r) < 0x1_0000_0000)
    ensures j.JBool? ==> GetInt32(j) == GetUint32(j) == Ok(if j.b then 1 else 0)
  {
  }
}
