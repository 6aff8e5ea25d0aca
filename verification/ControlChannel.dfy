/**
 The objects: sessions and transports that point at each other. Every method is tied to
 the step of the models it performs, so what holds of every run holds of the objects.
 */
module ControlChannel {
  import opened Faults
  import opened JsonValues
  import opened Promises
  import opened SessionModel
  import opened Messages
  import TransportModel
  import Attachment

  class Transport {
    var open: bool
    var done: bool
    var connected: Promise<()>
    var connecting: bool
    var stopping: bool
    var client: TransportModel.ClientThread
    var pending: nat              // connections queued by client_.connect
    var live: nat                 // connections opened and not closed
    var handler: Session?
    ghost var sent: seq<seq<Json>>

    ghost function Handler(): set<Session>
      reads this
    {
      if handler == null then {} else {handler}
    }

    ghost function View(): TransportModel.TransportState
      reads this
    {
      TransportModel.TransportState(open, done, connected, connecting, stopping, client, pending, live)
    }

    ghost function AsLink(): Link
      reads this
    {
      Attached(open, done, client != TransportModel.Joined)
    }

    constructor ()
      ensures View() == TransportModel.Created() && handler == null && sent == []
    {
      open, done, connected, connecting, stopping := false, false, Fresh(), false, false;
      client, pending, live, handler, sent := TransportModel.Running, 0, 0, null, [];
    }

    method Connect(initialised: bool) returns (out: Outcome)
      modifies this`connected, this`connecting, this`pending
      ensures TransportModel.TransportEffect(View(), out) == TransportModel.BeginConnect(old(View()), initialised)
    {
      if open {
        return Threw(LogicFault);
      }
      if !initialised {
        return Threw(StandardFault);
      }
      pending := pending + 1;
      var future := TakeFuture(connected);
      if future.Err? {
        return Threw(future.fault);
      }
      connected, connecting := future.value, true;
      return Done;
    }

    method ConnectReturns() returns (out: Outcome)
      modifies this`connecting
      ensures TransportModel.TransportEffect(View(), out) == TransportModel.EndConnect(old(View()))
    {
      connecting := false;
      out := if connected.cell.Failed? then Threw(connected.cell.fault) else Done;
    }

    method Disconnect(onClientThread: bool, closes: bool) returns (out: Outcome)
      modifies this`stopping
      ensures TransportModel.TransportEffect(View(), out)
           == TransportModel.BeginDisconnect(old(View()), onClientThread, closes)
    {
      if !open {
        return Threw(LogicFault);
      }
      out := StopClient(onClientThread, closes);
    }

    /** StopClient up to the join; it is noexcept. */
    method StopClient(onClientThread: bool, closes: bool) returns (out: Outcome)
      requires open
      modifies this`stopping
      ensures TransportModel.TransportEffect(View(), out)
           == TransportModel.BeginDisconnect(old(View()), onClientThread, closes)
    {
      if done {
        return Done;
      }
      if !closes {
        return Terminated(StandardFault);
      }
      if onClientThread || client == TransportModel.Joined {
        return Terminated(JoinFault);
      }
      stopping := true;
      return Done;
    }

    method DisconnectReturns() returns (out: Outcome)
      modifies this`stopping, this`client, this`open
      ensures TransportModel.TransportEffect(View(), out) == TransportModel.EndDisconnect(old(View()))
    {
      stopping, client, open := false, TransportModel.Joined, false;
      out := Done;
    }

    method IsConnected() returns (b: bool)
      ensures b == TransportModel.IsConnected(View())
    {
      b := open && !done;
    }

    method OnClientOpen() returns (out: Outcome)
      modifies this`open, this`connected, this`pending, this`live
      ensures TransportModel.TransportEffect(View(), out) == TransportModel.Opened(old(View()))
    {
      pending, live := TransportModel.OneLess(pending), live + 1;
      open := true;
      var signalled := Write(connected, Value(()));
      if signalled.Err? {
        return Threw(signalled.fault);
      }
      connected := signalled.value;
      return Done;
    }

    method OnClientClose() returns (out: Outcome)
      modifies this`done, this`live
      ensures TransportModel.TransportEffect(View(), out) == TransportModel.ClosedBy(old(View()))
    {
      live := TransportModel.OneLess(live);
      done := true;
      out := Done;
    }

    method OnClientFail() returns (out: Outcome)
      modifies this`done, this`connected, this`pending
      ensures TransportModel.TransportEffect(View(), out) == TransportModel.FailedBy(old(View()))
    {
      pending := TransportModel.OneLess(pending);
      if !open {
        var signalled := Write(connected, Failed(NetworkFault));
        if signalled.Err? {
          return Threw(signalled.fault);
        }
        connected := signalled.value;
      }
      done := true;
      return Done;
    }

    /** `delivered` is what the websocket client reports for the array. */
    method SendMessage(message: Message, delivered: bool) returns (out: Outcome)
      modifies this`sent
      ensures out == if delivered then Done else Threw(NetworkFault)
      ensures sent == old(sent) + if delivered then [message.Contents()] else []
    {
      var j := ToArray(message);
      if !delivered {
        return Threw(NetworkFault);
      }
      sent := sent + [j.items];
      return Done;
    }

    /** `payload` is what json::parse makes of the text, None if it throws. Payloads that are
        not arrays, and all payloads without a handler, are dropped. */
    method RecvMessage(payload: Option<Json>, delivered: bool) returns (out: Outcome)
      modifies Handler(), if handler == null then {} else handler.Peer()
      ensures handler == old(handler)
      ensures handler != null && payload.Some? && payload.value.JArray? ==>
        Effect(handler.View(), out) == OnMessage(old(handler.View()), payload.value.items, delivered)
      ensures handler != null ==> Relays(old(handler.Sent()), old(handler.wire), handler.Sent(), handler.wire)
      ensures handler != null && (payload.None? || !payload.value.JArray?) ==>
        Effect(handler.View(), out) == Effect(old(handler.View()), if payload.None? then Threw(ParseFault) else Done)
      ensures handler == null ==> out == Done
    {
      if handler == null {
        return Done;
      }
      if payload.None? {
        return Threw(ParseFault);
      }
      if !payload.value.JArray? {
        return Done;
      }
      var message, copied := FromArray(payload.value.items);
      out := handler.OnMessage(message, delivered);
    }

    method Attach(session: Session, ghost ss: set<Session>, ghost ts: set<Transport>) returns (out: Outcome)
      requires this in ts && session in ss
      modifies this`handler, session`transport
      ensures Attachment.LinkEffect(Snapshot(ss, ts), out) == Attachment.Attach(old(Snapshot(ss, ts)), this, session)
      ensures old(handler) == null ==>
        && handler == session
        && session.transport == if old(session.transport) == null then this else old(session.transport)
      ensures old(handler) != null ==> session.transport == old(session.transport)
    {
      if handler != null {
        return Threw(LogicFault);
      }
      handler := session;
      out := session.OnAttach(this);
      assert Snapshot(ss, ts).handlerOf == old(Snapshot(ss, ts)).handlerOf[this := session];
      assert out.Done? ==>
        Snapshot(ss, ts).transportOf == old(Snapshot(ss, ts)).transportOf[session := this];
    }

    method Detach(ghost ss: set<Session>, ghost ts: set<Transport>) returns (out: Outcome)
      requires this in ts && Handler() <= ss
      modifies this`handler, Handler()`transport
      ensures Attachment.LinkEffect(Snapshot(ss, ts), out) == Attachment.Detach(old(Snapshot(ss, ts)), this)
    {
      if handler == null {
        return Threw(LogicFault);
      }
      out := handler.OnDetach();
      if out.Threw? {
        return;
      }
      handler := null;
      assert Snapshot(ss, ts).handlerOf == old(Snapshot(ss, ts)).handlerOf - {this};
      assert Snapshot(ss, ts).transportOf == old(Snapshot(ss, ts)).transportOf - {old(handler)};
    }
  }

  /** Who points at whom, among the given objects. */
  ghost function Snapshot(ss: set<Session>, ts: set<Transport>): Attachment.Links<Session, Transport>
    reads ss, ts
  {
    Attachment.Links(
      map s: Session | s in ss && s.transport != null :: s.transport as Transport,
      map t: Transport | t in ts && t.handler != null :: t.handler as Session)
  }

  /** Any sequence of attaches and detaches on unconnected objects. */
  method ManageLinks(cs: seq<Attachment.Command<Session, Transport>>, ghost ss: set<Session>, ghost ts: set<Transport>)
    requires forall s :: s in ss ==> s.transport == null
    requires forall t :: t in ts ==> t.handler == null
    requires forall c :: c in cs ==> c.t in ts && (c.AttachTo? ==> c.s in ss)
    modifies ss, ts
    ensures Snapshot(ss, ts) == Attachment.ApplyAll(cs)
  {
    for i := 0 to |cs|
      invariant Snapshot(ss, ts) == Attachment.ApplyAll(cs[..i])
      invariant forall t :: t in ts ==> t.Handler() <= ss
    {
      assert cs[..i + 1][..i] == cs[..i];
      var out;
      match cs[i] {
        case AttachTo(t, s) => out := t.Attach(s, ss, ts);
        case DetachFrom(t) => out := t.Detach(ss, ts);
      }
    }
    assert cs[..|cs|] == cs;
  }

  class Session {
    var state: SessionState
    var sessionId: uint32
    var transport: Transport?
    var joined: Promise<uint32>
    var leaved: Promise<bool>
    var pongReceived: Promise<bool>
    var operations: map<string, Operation>
    var heartbeat: Heartbeat      // the control point of hearbeat_thread_
    var caller: Caller            // the control point of the thread inside Join
    var listener: Listener        // the control point of the thread inside Listen
    var ioQueue: seq<Task>        // lambdas dispatched to io_context_
    var clock: real
    var crashed: bool
    ghost var wire: seq<seq<Json>>

    ghost function Peer(): set<Transport>
      reads this
    {
      if transport == null then {} else {transport}
    }

    /** What the attached transport has handed to the websocket. */
    ghost function Sent(): seq<seq<Json>>
      reads this, transport
    {
      if transport == null then [] else transport.sent
    }

    ghost function View(): State
      reads this, transport
    {
      State(state, sessionId,
            if transport == null then Detached else transport.AsLink(),
            joined, leaved, pongReceived, operations, heartbeat, caller, listener, ioQueue, clock, wire, crashed)
    }

    constructor ()
      ensures View() == Init() && transport == null
    {
      state, sessionId, transport := Closed, 0, null;
      joined, leaved, pongReceived := Fresh(), Fresh(), Fresh();
      operations, heartbeat, caller, ioQueue, clock, crashed := map[], NotStarted, Idle, [], 0.0, false;
      listener, wire := NotListening, [];
    }

    method OnAttach(t: Transport) returns (out: Outcome)
      modifies this`transport
      ensures Effect(View(), out) == SessionModel.OnAttach(old(View()), t.AsLink())
      ensures transport == if old(transport) == null then t else old(transport)
    {
      if transport != null {
        return Threw(LogicFault);
      }
      transport := t;
      return Done;
    }

    method OnDetach() returns (out: Outcome)
      modifies this`transport
      ensures Effect(View(), out) == SessionModel.OnDetach(old(View()))
      ensures transport == null
    {
      if transport == null {
        return Threw(LogicFault);
      }
      transport := null;
      return Done;
    }

    method RegisterOperation(name: string, fn: Operation)
      modifies this`operations
      ensures operations == old(operations)[name := fn]
    {
      operations := operations[name := fn];
    }

    method SendMessage(message: Message, established: bool, delivered: bool) returns (out: Outcome)
      modifies this`wire, Peer()`sent
      ensures Effect(View(), out) == Send(old(View()), message.Contents(), established, delivered)
      ensures Sent() == old(Sent()) + if out.Done? then [message.Contents()] else []
      ensures wire == old(wire) + if out.Done? then [message.Contents()] else []
    {
      if transport == null {
        return Threw(NoTransport);
      }
      var up := transport.IsConnected();
      if !up {
        return Threw(NoTransport);
      }
      if established && sessionId == 0 {
        return Threw(NoSession);
      }
      out := transport.SendMessage(message, delivered);
      if out.Done? {
        wire := wire + [message.Contents()];
      }
    }

    method ProcessWelcomeMessage(message: Message) returns (out: Outcome)
      modifies this`state, this`heartbeat, this`sessionId, this`joined, this`crashed
      ensures Effect(View(), out) == ProcessWelcome(old(View()), message.Contents())
    {
      if state != Establishing {
        return Threw(ProtocolFault);
      }
      state := Established;
      if heartbeat != NotStarted {
        crashed := true;
        return Terminated(ThreadStillJoinable);
      }
      heartbeat := Sleeping(clock);
      var field := message.GetField(1);
      if field.Err? {
        return Threw(field.fault);
      }
      var id := GetUint32(field.value);
      if id.Err? {
        return Threw(id.fault);
      }
      sessionId := id.value;
      out := ResolveJoined(Value(sessionId));
    }

    method ProcessAbortMessage(message: Message) returns (out: Outcome)
      modifies this`joined
      ensures Effect(View(), out) == ProcessAbort(old(View()), message.Contents())
    {
      var field := message.GetField(1);
      if field.Err? {
        return Threw(field.fault);
      }
      var reason := GetString(field.value);
      if reason.Err? {
        return Threw(reason.fault);
      }
      out := ResolveJoined(Failed(AbortFault(reason.value)));
    }

    method ProcessPongMessage() returns (out: Outcome)
      modifies this`pongReceived
      ensures Effect(View(), out) == WritePong(old(View()), Value(true))
    {
      out := ResolvePong(Value(true));
    }

    method ProcessCallMessage(message: Message, delivered: bool) returns (out: Outcome)
      modifies this`wire, Peer()`sent
      ensures Effect(View(), out) == ProcessCall(old(View()), message.Contents(), delivered)
      ensures Relays(old(Sent()), old(wire), Sent(), wire)
    {
      var idField := message.GetField(1);
      if idField.Err? {
        return Threw(idField.fault);
      }
      var requestId := GetInt32(idField.value);
      if requestId.Err? {
        return Threw(requestId.fault);
      }
      var operationField := message.GetField(2);
      if operationField.Err? {
        return Threw(operationField.fault);
      }
      var operation := GetString(operationField.value);
      if operation.Err? {
        return Threw(operation.fault);
      }
      var arguments := message.GetField(3);
      if arguments.Err? {
        return Threw(arguments.fault);
      }
      if operation.value in operations {
        var result := operations[operation.value](arguments.value);
        if result.None? {
          return Threw(OperationFault);
        }
        var reply := ResultMessage(requestId.value, result.value);
        out := SendMessage(reply, true, delivered);
      } else {
        var reply := NoSuchOperationMessage(requestId.value);
        out := SendMessage(reply, true, delivered);
      }
    }

    method OnMessage(message: Message, delivered: bool) returns (out: Outcome)
      modifies this, Peer()`sent
      ensures Effect(View(), out) == SessionModel.OnMessage(old(View()), old(message.Contents()), delivered)
      ensures transport == old(transport)
      ensures Relays(old(Sent()), old(wire), Sent(), wire)
    {
      var size := message.Size();
      if size < 1 {
        out := ResolveLeaved(Failed(ProtocolFault));
        return;
      }
      var field := message.GetField(0);
      var tag := GetInt32(field.value);
      if tag.Err? {
        return Threw(tag.fault);
      }
      if tag.value == HELLO || tag.value == PING || tag.value == RESULT {
        return Threw(ProtocolFault);
      } else if tag.value == WELCOME {
        out := ProcessWelcomeMessage(message);
      } else if tag.value == ABORT {
        out := ProcessAbortMessage(message);
      } else if tag.value == PONG {
        out := ProcessPongMessage();
      } else if tag.value == CALL {
        out := ProcessCallMessage(message, delivered);
      } else {
        out := Done;
      }
    }

    method ResolveJoined(c: Cell<uint32>) returns (out: Outcome)
      requires !c.Unset?
      modifies this`joined
      ensures Effect(View(), out) == WriteJoined(old(View()), c)
    {
      var r := Write(joined, c);
      if r.Err? {
        return Threw(r.fault);
      }
      joined := r.value;
      return Done;
    }

    method ResolveLeaved(c: Cell<bool>) returns (out: Outcome)
      requires !c.Unset?
      modifies this`leaved
      ensures Effect(View(), out) == WriteLeaved(old(View()), c)
    {
      var r := Write(leaved, c);
      if r.Err? {
        return Threw(r.fault);
      }
      leaved := r.value;
      return Done;
    }

    method ResolvePong(c: Cell<bool>) returns (out: Outcome)
      requires !c.Unset?
      modifies this`pongReceived
      ensures Effect(View(), out) == WritePong(old(View()), c)
    {
      var r := Write(pongReceived, c);
      if r.Err? {
        return Threw(r.fault);
      }
      pongReceived := r.value;
      return Done;
    }

    /** The next lambda on the io thread. */
    method RunTask(delivered: bool) returns (out: Outcome)
      requires ioQueue != []
      modifies this`ioQueue, this`joined, this`leaved, this`pongReceived, this`wire, Peer()`sent
      ensures Effect(View(), out) == SessionModel.RunTask(old(View()), delivered)
      ensures Relays(old(Sent()), old(wire), Sent(), wire)
    {
      var task := ioQueue[0];
      ioQueue := ioQueue[1..];
      match task {
        case SayHello(realm) => out := RunHello(realm, delivered);
        case SendPing => out := RunPing(delivered);
      }
    }

    method RunHello(realm: string, delivered: bool) returns (out: Outcome)
      modifies this`joined, this`wire, Peer()`sent
      ensures Effect(View(), out) == SessionModel.RunHello(old(View()), realm, delivered)
      ensures Relays(old(Sent()), old(wire), Sent(), wire)
    {
      if sessionId != 0 {
        out := ResolveJoined(Failed(LogicFault));
        return;
      }
      var hello := HelloMessage(realm);
      out := SendMessage(hello, false, delivered);
      if out.Threw? {
        out := ResolveJoined(Failed(StandardFault));
      }
    }

    method RunPing(delivered: bool) returns (out: Outcome)
      modifies this`leaved, this`pongReceived, this`wire, Peer()`sent
      ensures Effect(View(), out) == SessionModel.RunPing(old(View()), delivered)
      ensures Relays(old(Sent()), old(wire), Sent(), wire)
    {
      var ping := PingMessage();
      out := SendMessage(ping, true, delivered);
      if out.Threw? && IsNetworkFault(out.fault) {
        out := ResolvePong(Value(false));
        if out.Done? {
          out := ResolveLeaved(Failed(NetworkFault));
        }
      }
    }

    method Join(realm: string)
      modifies this`state, this`caller
      ensures View() == old(View()).(phase := Establishing, caller := JoinDispatching(realm))
    {
      state := Establishing;
      caller := JoinDispatching(realm);
    }

    /** From one control point of Join to the next. */
    method MoveCaller() returns (out: Outcome)
      requires CallerReady(View())
      modifies this`ioQueue, this`caller, this`joined
      ensures Effect(View(), out) == CallerStep(old(View()))
    {
      out := Done;
      match caller {
        case JoinDispatching(realm) =>
          ioQueue := ioQueue + [SayHello(realm)];
          caller := JoinTakingFuture;
        case JoinTakingFuture =>
          var future := TakeFuture(joined);
          if future.Err? {
            caller := JoinFinished(Err(future.fault));
            return Threw(future.fault);
          }
          joined, caller := future.value, JoinWaiting(clock);
        case JoinWaiting(_) =>
          var result := JoinResult(joined.cell);
          caller := JoinFinished(result);
          if result.Err? {
            return Threw(result.fault);
          }
      }
    }

    /** Listen up to the wait for leaved_. */
    method Listen() returns (out: Outcome)
      modifies this`leaved, this`listener
      ensures Effect(View(), out) == SessionModel.Listen(old(View()))
    {
      var future := TakeFuture(leaved);
      if future.Err? {
        listener := Listened(Err(future.fault));
        return Threw(future.fault);
      }
      leaved, listener := future.value, Listening;
      return Done;
    }

    method ListenReturns() returns (out: Outcome)
      requires !leaved.cell.Unset?
      modifies this`listener
      ensures Effect(View(), out) == ListenEnds(old(View()))
    {
      var result := ListenResult(leaved.cell);
      listener := Listened(result);
      out := if result.Ok? then Done else Threw(result.fault);
    }

    method Leave(onClientThread: bool, closes: bool) returns (out: Outcome)
      modifies this`leaved, this`crashed, Peer()`stopping
      ensures Effect(View(), out) == SessionModel.Leave(old(View()), onClientThread, closes)
      ensures old(leaved.cell.Unset?) && transport != null ==>
        TransportModel.TransportEffect(transport.View(), out)
        == TransportModel.BeginDisconnect(old(transport.View()), onClientThread, closes)
    {
      out := ResolveLeaved(Value(true));
      if out.Threw? {
        return;
      }
      if transport == null {
        crashed := true;
        return Terminated(Undefined);
      }
      out := transport.Disconnect(onClientThread, closes);
      crashed := crashed || out.Terminated?;
    }

    /** From one control point of HearbeatController to the next. */
    method MoveHeartbeat() returns (out: Outcome)
      requires BeatReady(View())
      modifies this`heartbeat, this`ioQueue, this`pongReceived, this`leaved, this`crashed
      ensures Effect(View(), out) == Beat(old(View()))
    {
      out := Done;
      match heartbeat {
        case Sleeping(_) => heartbeat := Dispatching;
        case Dispatching =>
          ioQueue := ioQueue + [SendPing];
          heartbeat := TakingFuture;
        case TakingFuture =>
          var future := TakeFuture(pongReceived);
          if future.Err? {
            crashed := true;
            return Terminated(future.fault);
          }
          pongReceived, heartbeat := future.value, Waiting(clock);
        case Waiting(_) =>
          heartbeat := if pongReceived.cell.Unset? then TimedOut else Getting;
        case TimedOut =>
          heartbeat := Getting;
          out := ResolvePong(Value(false));
          out := Escape(out);
        case Getting => out := GetPong();
        case Resetting =>
          pongReceived, heartbeat := Fresh(), Sleeping(clock);
        case Failing =>
          heartbeat := Expired;
          out := ResolveLeaved(Failed(TimeoutFault));
          out := Escape(out);
      }
    }

    method GetPong() returns (out: Outcome)
      requires !pongReceived.cell.Unset?
      modifies this`heartbeat, this`leaved, this`crashed
      ensures Effect(View(), out) == BeatGet(old(View()))
    {
      match pongReceived.cell {
        case Value(alive) =>
          heartbeat := if alive then Resetting else Failing;
          out := Done;
        case Failed(fault) =>
          if IsNetworkFault(fault) {
            heartbeat := Resetting;
            out := ResolveLeaved(Failed(NetworkFault));
            out := Escape(out);
          } else {
            crashed := true;
            out := Terminated(fault);
          }
      }
    }

    method Escape(thrown: Outcome) returns (out: Outcome)
      modifies this`crashed
      ensures Effect(View(), out) == Escaping(Effect(old(View()), thrown))
    {
      out := thrown;
      if thrown.Threw? {
        crashed := true;
        out := Terminated(thrown.fault);
      }
    }

    /** One labelled step; the environment's labels act on the session's transport. */
    method Perform(l: Label)
      requires Enabled(View(), l)
      modifies this, transport
      ensures View() == Step(old(View()), l)
      ensures transport == old(transport) || transport == null || fresh(transport)
      ensures transport == old(transport) ==> Relays(old(Sent()), old(wire), Sent(), wire)
      ensures transport != old(transport) ==> Sent() == [] && wire == old(wire)
      ensures transport != old(transport) && transport != null ==> l.Attach? && old(transport) == null
    {
      var out := Done;
      match l {
        case Receive(fields, delivered) =>
          var message, copied := FromArray(fields);
          out := OnMessage(message, delivered);
        case RunsTask(delivered) => out := RunTask(delivered);
        case Leaves(onClientThread, closes) => out := Leave(onClientThread, closes);
        case Garbled =>
        case Attach(_) => ChangeLink(l);
        case Detach => ChangeLink(l);
        case LinkOpens => ChangeLink(l);
        case LinkEnds => ChangeLink(l);
        case LinkStops => ChangeLink(l);
        case _ => MoveThread(l);
      }
    }

    /** The steps of the application's and the heartbeat's threads, which send nothing. */
    method MoveThread(l: Label)
      requires l.Join? || l.CallerMoves? || l.Listens? || l.ListenReturns? || l.Register? || l.Beats?
               || l.WakesSpuriously? || l.Tick?
      requires Enabled(View(), l)
      modifies this`state, this`caller, this`ioQueue, this`joined, this`leaved, this`pongReceived,
               this`listener, this`operations, this`heartbeat, this`clock, this`crashed
      ensures View() == Step(old(View()), l)
    {
      var out := Done;
      match l {
        case Join(realm) => Join(realm);
        case CallerMoves => out := MoveCaller();
        case Listens => out := Listen();
        case ListenReturns => out := ListenReturns();
        case Register(name, fn) => RegisterOperation(name, fn);
        case Beats => out := MoveHeartbeat();
        case WakesSpuriously => heartbeat := Stopped;
        case Tick(d) => clock := clock + d;
      }
    }

    /** The steps that attach, detach or change the transport. */
    method ChangeLink(l: Label)
      requires l.Attach? || l.Detach? || l.LinkOpens? || l.LinkEnds? || l.LinkStops?
      requires Enabled(View(), l)
      modifies this`transport, transport
      ensures View() == Step(old(View()), l)
      ensures if l.Attach? && old(transport) == null then fresh(transport) && Sent() == []
              else if l.Detach? then transport == null
              else transport == old(transport) && Sent() == old(Sent())
    {
      var out := Done;
      match l {
        case Attach(link) => AttachNew(link);
        case Detach => out := OnDetach();
        case LinkOpens => out := transport.OnClientOpen();
        case LinkEnds => out := transport.OnClientClose();
        case LinkStops => out := transport.DisconnectReturns();
      }
    }

    /** Attaches a new transport in the given state. */
    method AttachNew(link: Link)
      requires link.Attached?
      modifies this`transport
      ensures View() == SessionModel.OnAttach(old(View()), link).state
      ensures if old(transport) == null then fresh(transport) && Sent() == [] else transport == old(transport)
      ensures transport == old(transport) ==> Sent() == old(Sent())
    {
      var t := NewTransport(link);
      var out := t.Attach(this, {this}, {t});
    }

    /** The session is where the schedule leads, and its transport has sent what the session
        logged since it was attached. */
    ghost predicate Follows(ls: seq<Label>)
      reads this, transport
    {
      && View() == Exec(ls)
      && (transport != null ==> WireAtAttach(ls) <= |wire| && Sent() == wire[WireAtAttach(ls)..])
    }

    method PerformAt(ls: seq<Label>, i: nat)
      requires Run(ls) && i < |ls| && Follows(ls[..i])
      modifies this, transport
      ensures Follows(ls[..i + 1])
      ensures transport == old(transport) || transport == null || fresh(transport)
    {
      RunAt(ls, i);
      AttachedAt(ls, i);
      ghost var sentBefore, wireBefore, start := Sent(), wire, WireAtAttach(ls[..i]);
      Perform(ls[i]);
      if transport == old(transport) && transport != null {
        StillLogged(sentBefore, wireBefore, Sent(), wire, start);
      }
    }

    /** The session under any schedule of its threads. */
    method Drive(ls: seq<Label>)
      requires View() == Init() && Run(ls)
      modifies this, transport
      ensures View() == Exec(ls)
      ensures transport != null ==> WireAtAttach(ls) <= |wire| && Sent() == wire[WireAtAttach(ls)..]
    {
      for i := 0 to |ls|
        invariant Follows(ls[..i])
        invariant transport == old(transport) || transport == null || fresh(transport)
      {
        PerformAt(ls, i);
      }
      assert ls[..|ls|] == ls;
    }
  }

  /** The transport was handed exactly the messages by which the log grew. */
  predicate Relays(sent: seq<seq<Json>>, wire: seq<seq<Json>>, sent': seq<seq<Json>>, wire': seq<seq<Json>>) {
    wire <= wire' && sent' == sent + wire'[|wire|..]
  }

  lemma StillLogged(sent: seq<seq<Json>>, wire: seq<seq<Json>>, sent': seq<seq<Json>>, wire': seq<seq<Json>>, start: nat)
    requires Relays(sent, wire, sent', wire') && start <= |wire| && sent == wire[start..]
    ensures start <= |wire'| && sent' == wire'[start..]
  {
  }

  /** The length of the log when the last transport was attached. */
  function WireAtAttach(ls: seq<Label>): nat {
    if ls == [] then 0
    else if Last(ls).Attach? && Exec(Front(ls)).link.Detached? then |Exec(Front(ls)).wire|
    else WireAtAttach(Front(ls))
  }

  lemma AttachedAt(ls: seq<Label>, i: nat)
    requires i < |ls|
    ensures WireAtAttach(ls[..i + 1])
         == if ls[i].Attach? && Exec(ls[..i]).link.Detached? then |Exec(ls[..i]).wire| else WireAtAttach(ls[..i])
  {
    assert Front(ls[..i + 1]) == ls[..i] && Last(ls[..i + 1]) == ls[i];
  }

  /** A transport that has come as far as the given state. */
  method NewTransport(link: Link) returns (t: Transport)
    requires link.Attached?
    ensures fresh(t) && t.AsLink() == link && t.handler == null && t.sent == []
  {
    t := new Transport();
    var out;
    if !link.joinable {
      out := t.DisconnectReturns();
    }
    if link.open {
      out := t.OnClientOpen();
    }
    if link.done {
      out := t.OnClientClose();
    }
  }

  method HelloMessage(realm: string) returns (m: Message)
    ensures fresh(m) && fresh(m.fields) && m.Contents() == HelloFields(realm)
  {
    m := new Message(2);
    var out := m.SetField(0, JInt(HELLO));
    out := m.SetField(1, JString(realm));
  }

  method PingMessage() returns (m: Message)
    ensures fresh(m) && fresh(m.fields) && m.Contents() == PingFields()
  {
    m := new Message(2);
    var out := m.SetField(0, JInt(PING));
    out := m.SetField(1, EMPTY_OBJECT);
  }

  method ResultMessage(requestId: int32, result: Json) returns (m: Message)
    ensures fresh(m) && fresh(m.fields) && m.Contents() == ResultFields(requestId, result)
  {
    m := new Message(3);
    var out := m.SetField(0, JInt(RESULT));
    out := m.SetField(1, JInt(requestId));
    out := m.SetField(2, result);
  }

  method NoSuchOperationMessage(requestId: int32) returns (m: Message)
    ensures fresh(m) && fresh(m.fields) && m.Contents() == NoSuchOperationFields(requestId)
  {
    m := new Message(5);
    var out := m.SetField(0, JInt(ERROR));
    out := m.SetField(1, JInt(CALL));
    out := m.SetField(2, JInt(requestId));
    out := m.SetField(3, JString("ERR_NO_SUCH_OPERATION"));
    out := m.SetField(4, EMPTY_OBJECT);
  }
}
