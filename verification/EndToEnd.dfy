/** The session and the typed codec, two views of the same wire. */
module EndToEnd {
  import opened Faults
  import opened JsonValues
  import opened Promises
  import opened SessionModel
  import opened SessionMoves
  import opened SessionSafety
  import opened SessionTiming
  import opened Messages
  import ControlChannel
  import P = Protocol

  /** The ERROR the session builds field by field is the codec's ErrorMessage, on the wire
      and decoded from it. */
  method SendNoSuchOperation(requestId: int32) returns (j: P.JsonArray, decoded: Result<P.ProtocolMessage>)
    ensures fresh(j)
    ensures var error := P.Error(P.CALL, requestId, "ERR_NO_SUCH_OPERATION", EMPTY_OBJECT);
      j.items == P.Encode(error) && decoded == Ok(error)
  {
    var message := ControlChannel.NoSuchOperationMessage(requestId);
    j := ToArray(message);
    decoded := P.Decode(P.ErrorKind, JArray(j.items));
    P.CodecRoundTrip(P.Error(P.CALL, requestId, "ERR_NO_SUCH_OPERATION", EMPTY_OBJECT));
  }

  /** The heartbeat's PING is the codec's PingMessage(). */
  method SendHeartbeatPing() returns (j: P.JsonArray, decoded: Result<P.ProtocolMessage>)
    ensures fresh(j)
    ensures j.items == P.Encode(P.Ping(EMPTY_OBJECT)) && decoded == Ok(P.Ping(EMPTY_OBJECT))
  {
    var message := ControlChannel.PingMessage();
    j := ToArray(message);
    decoded := P.Decode(P.PingKind, JArray(j.items));
  }

  /** The session's two-field HELLO has no third field for the codec to read. */
  lemma SessionHelloLacksDetails(realm: string)
    ensures P.Decode(P.HelloKind, JArray(HelloFields(realm))) == Err(Undefined)
  {
  }

  /** The codec's session id is signed and the session's is not: a negative id arrives as
      its value modulo 2^32, and only a zero id leaves the session unable to send. */
  lemma WelcomeAcrossCodecs(s: State, sessionId: int32, details: Json, delivered: bool)
    requires s.phase == Establishing && s.heartbeat.NotStarted? && s.joined.cell.Unset?
    ensures var id := if sessionId >= 0 then sessionId else sessionId + 0x1_0000_0000;
      var e := OnMessage(s, P.Encode(P.Welcome(sessionId, details)), delivered);
      && e.outcome == Done && e.state.phase == Established
      && e.state.sessionId == id && e.state.joined.cell == Value(id)
      && (e.state.sessionId == 0 <==> sessionId == 0)
  {
  }

  /** The PONG the codec writes is a PING to the session, which rejects it. */
  lemma CodecPongIsRejected(s: State, details: Json, delivered: bool)
    ensures OnMessage(s, P.Encode(P.Pong(details)), delivered) == Effect(s, Threw(ProtocolFault))
  {
  }

  /** Nothing on the client thread catches that: the first PONG from the codec ends the process. */
  lemma CodecPongEndsProcess(s: State, details: Json, delivered: bool)
    requires !s.crashed
    ensures EndsProcess(s, Receive(P.Encode(P.Pong(details)), delivered))
  {
  }

  /** Every message received was written by the codec. */
  ghost predicate PeerUsesCodec(ls: seq<Label>) {
    forall j :: 0 <= j < |ls| && ls[j].Receive? ==> exists m: P.ProtocolMessage :: ls[j].fields == P.Encode(m)
  }

  lemma CodecTagIsNotPong(m: P.ProtocolMessage)
    ensures MessageTag(P.Encode(m)).Ok? && MessageTag(P.Encode(m)).value != PONG
  {
  }

  lemma {:induction false} CodecPongNeverAccepted(ls: seq<Label>, j: nat)
    requires PeerUsesCodec(ls) && j < |ls|
    ensures !AcceptsPong(Exec(ls[..j]), ls[j])
  {
    if ls[j].Receive? {
      var m: P.ProtocolMessage :| ls[j].fields == P.Encode(m);
      CodecTagIsNotPong(m);
    }
  }

  /** A peer that writes its messages with the codec cannot keep a session alive: it ends the
      process with its first PONG, and if it sends none, or a caller of OnMessage did catch,
      leaved_ is resolved within 24 s whenever the heartbeat runs. */
  lemma {:induction false} CodecPeerLooksDead(ls: seq<Label>, i: nat)
    requires TimedRun(ls) && PeerUsesCodec(ls) && i <= |ls| && !Exec(ls).crashed
    requires Beating(Exec(ls[..i])) && Exec(ls).now > Exec(ls[..i]).now + 24.0
    ensures !Exec(ls).leaved.cell.Unset?
  {
    forall j | 0 <= j < |ls| ensures !AcceptsPong(Exec(ls[..j]), ls[j]) {
      CodecPongNeverAccepted(ls, j);
    }
    DeadPeerBoundInWindow(ls, i);
  }
}
