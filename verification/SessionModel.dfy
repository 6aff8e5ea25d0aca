/**
 The control-channel session as a labelled step system. Three threads share it: the
 caller inside Join, the single io thread that runs inbound messages and dispatched
 lambdas, and the heartbeat controller. Every step is atomic; a schedule is a sequence
 of labels, and Exec is the state a schedule reaches.
 */
module SessionModel {
  import opened Faults
  import opened JsonValues
  import opened Promises

  // ---------------------------------------------------------------- messages

  const HELLO := 1
  const WELCOME := 2
  const ABORT := 3
  const PING := 4
  const PONG := 5
  const ERROR := 9
  const CALL := 10
  const RESULT := 11
  const PUBLISH := 20
  const PUBLISHED := 21

  function HelloFields(realm: string): seq<Json> {
    [JInt(HELLO), JString(realm)]
  }

  function PingFields(): seq<Json> {
    [JInt(PING), EMPTY_OBJECT]
  }

  function ResultFields(requestId: int32, result: Json): seq<Json> {
    [JInt(RESULT), JInt(requestId), result]
  }

  function NoSuchOperationFields(requestId: int32): seq<Json> {
    [JInt(ERROR), JInt(CALL), JInt(requestId), JString("ERR_NO_SUCH_OPERATION"), EMPTY_OBJECT]
  }

  // ------------------------------------------------------------------- state

  datatype SessionState = Closed | Establishing | Established | Closing

  /** A registered function either returns a JSON value or throws (None). */
  type Operation = Json -> Option<Json>

  /** transport_, with the two flags IsConnected reads and whether its client thread has not
      been joined yet. */
  datatype Link = Detached | Attached(open: bool, done: bool, joinable: bool) {
    predicate Connected() {
      Attached? && open && !done
    }
  }

  /** Lambdas handed to asio::dispatch by the other threads. */
  datatype Task = SayHello(realm: string) | SendPing

  /** Control points of HearbeatController. */
  datatype Heartbeat =
    | NotStarted
    | Sleeping(since: real)   // in stop_signal_.wait_for, 20 s
    | Dispatching             // woken, about to dispatch the ping
    | TakingFuture            // about to call get_future
    | Waiting(since: real)    // in the future's wait_for, 4 s
    | TimedOut                // wait_for timed out, about to write false
    | Getting                 // about to call get
    | Resetting               // get returned true, about to replace the promise
    | Failing                 // get returned false, about to report on leaved_
    | Expired                 // left the loop after reporting the timeout
    | Stopped                 // left the loop because wait_for returned no_timeout

  /** Control points of the thread that calls Join. */
  datatype Caller =
    | Idle
    | JoinDispatching(realm: string)
    | JoinTakingFuture
    | JoinWaiting(since: real)
    | JoinFinished(result: Result<uint32>)

  /** Control points of the thread that calls Listen. */
  datatype Listener = NotListening | Listening | Listened(result: Result<bool>)

  datatype State = State(
    phase: SessionState,
    sessionId: uint32,
    link: Link,
    joined: Promise<uint32>,
    leaved: Promise<bool>,
    pong: Promise<bool>,
    operations: map<string, Operation>,
    heartbeat: Heartbeat,
    caller: Caller,
    listener: Listener,
    queue: seq<Task>,
    now: real,
    wire: seq<seq<Json>>,
    crashed: bool)

  function Init(): State {
    State(Closed, 0, Detached, Fresh(), Fresh(), Fresh(), map[], NotStarted, Idle,
          NotListening, [], 0.0, [], false)
  }

  datatype Effect = Effect(state: State, outcome: Outcome)

  function Terminate(s: State, f: Fault): Effect {
    Effect(s.(crashed := true), Terminated(f))
  }

  // ------------------------------------------------------------------ writes

  function WriteJoined(s: State, c: Cell<uint32>): Effect
    requires !c.Unset?
  {
    match Write(s.joined, c)
    case Ok(p) => Effect(s.(joined := p), Done)
    case Err(f) => Effect(s, Threw(f))
  }

  function WriteLeaved(s: State, c: Cell<bool>): Effect
    requires !c.Unset?
  {
    match Write(s.leaved, c)
    case Ok(p) => Effect(s.(leaved := p), Done)
    case Err(f) => Effect(s, Threw(f))
  }

  function WritePong(s: State, c: Cell<bool>): Effect
    requires !c.Unset?
  {
    match Write(s.pong, c)
    case Ok(p) => Effect(s.(pong := p), Done)
    case Err(f) => Effect(s, Threw(f))
  }

  // --------------------------------------------------------------- io thread

  /** Session::SendMessage; `delivered` is false when the websocket reports an error. */
  function Send(s: State, fields: seq<Json>, established: bool, delivered: bool): Effect {
    if s.link.Detached? then Effect(s, Threw(NoTransport))
    else if !s.link.Connected() then Effect(s, Threw(NoTransport))
    else if established && s.sessionId == 0 then Effect(s, Threw(NoSession))
    else if !delivered then Effect(s, Threw(NetworkFault))
    else Effect(s.(wire := s.wire + [fields]), Done)
  }

  /** The lambda Join dispatches. */
  function RunHello(s: State, realm: string, delivered: bool): Effect {
    if s.sessionId != 0 then WriteJoined(s, Failed(LogicFault))
    else
      var sent := Send(s, HelloFields(realm), false, delivered);
      if sent.outcome.Threw? then WriteJoined(sent.state, Failed(StandardFault)) else sent
  }

  /** The lambda the heartbeat dispatches; only NetworkError is caught in it, and as that it is
      passed on, whatever subclass was thrown. */
  function RunPing(s: State, delivered: bool): Effect {
    var sent := Send(s, PingFields(), true, delivered);
    if sent.outcome.Threw? && IsNetworkFault(sent.outcome.fault) then
      var refused := WritePong(sent.state, Value(false));
      if refused.outcome.Threw? then refused
      else WriteLeaved(refused.state, Failed(NetworkFault))
    else sent
  }

  function RunTask(s: State, delivered: bool): Effect
    requires s.queue != []
  {
    var rest := s.(queue := s.queue[1..]);
    match s.queue[0]
    case SayHello(realm) => RunHello(rest, realm, delivered)
    case SendPing => RunPing(rest, delivered)
  }

  /** The state is set and the thread started before field 1 is read. */
  function ProcessWelcome(s: State, fields: seq<Json>): Effect {
    if s.phase != Establishing then Effect(s, Threw(ProtocolFault))
    else
      var entered := s.(phase := Established);
      if s.heartbeat != NotStarted then Terminate(entered, ThreadStillJoinable)
      else
        var started := entered.(heartbeat := Sleeping(s.now));
        match WelcomeId(fields)
        case Err(f) => Effect(started, Threw(f))
        case Ok(id) => WriteJoined(started.(sessionId := id), Value(id))
  }

  function WelcomeId(fields: seq<Json>): Result<uint32> {
    var field :- Field(fields, 1);
    GetUint32(field)
  }

  function ProcessAbort(s: State, fields: seq<Json>): Effect {
    match AbortReason(fields)
    case Err(f) => Effect(s, Threw(f))
    case Ok(reason) => WriteJoined(s, Failed(AbortFault(reason)))
  }

  function AbortReason(fields: seq<Json>): Result<string> {
    var field :- Field(fields, 1);
    GetString(field)
  }

  datatype CallRequest = CallRequest(requestId: int32, operation: string, arguments: Json)

  function ReadCall(fields: seq<Json>): Result<CallRequest> {
    var idField :- Field(fields, 1);
    var id :- GetInt32(idField);
    var operationField :- Field(fields, 2);
    var operation :- GetString(operationField);
    var arguments :- Field(fields, 3);
    Ok(CallRequest(id, operation, arguments))
  }

  function ProcessCall(s: State, fields: seq<Json>, delivered: bool): Effect {
    match ReadCall(fields)
    case Err(f) => Effect(s, Threw(f))
    case Ok(call) =>
      if call.operation in s.operations then
        match s.operations[call.operation](call.arguments)
        case None => Effect(s, Threw(OperationFault))
        case Some(result) => Send(s, ResultFields(call.requestId, result), true, delivered)
      else
        Send(s, NoSuchOperationFields(call.requestId), true, delivered)
  }

  /** The message type a well-formed first field carries. */
  function MessageTag(fields: seq<Json>): Result<int32> {
    var field :- Field(fields, 0);
    GetInt32(field)
  }

  function OnMessage(s: State, fields: seq<Json>, delivered: bool): Effect {
    if |fields| < 1 then WriteLeaved(s, Failed(ProtocolFault))
    else
      match MessageTag(fields)
      case Err(f) => Effect(s, Threw(f))
      case Ok(tag) =>
        if tag == HELLO || tag == PING || tag == RESULT then Effect(s, Threw(ProtocolFault))
        else if tag == WELCOME then ProcessWelcome(s, fields)
        else if tag == ABORT then ProcessAbort(s, fields)
        else if tag == PONG then WritePong(s, Value(true))
        else if tag == CALL then ProcessCall(s, fields, delivered)
        else Effect(s, Done) // ERROR, PUBLISH, PUBLISHED and unknown types fall through
  }

  // ---------------------------------------------------------- caller's thread

  predicate CallerReady(s: State) {
    match s.caller
    case JoinDispatching(_) => true
    case JoinTakingFuture => true
    case JoinWaiting(since) => !s.joined.cell.Unset? || s.now >= since + 16.0
    case _ => false
  }

  function JoinResult(c: Cell<uint32>): Result<uint32> {
    match c
    case Value(n) => Ok(n)
    case Failed(f) => Err(f)
    case Unset => Err(TimeoutFault)
  }

  function CallerStep(s: State): Effect
    requires CallerReady(s)
  {
    match s.caller
    case JoinDispatching(realm) =>
      Effect(s.(queue := s.queue + [SayHello(realm)], caller := JoinTakingFuture), Done)
    case JoinTakingFuture => (
      match TakeFuture(s.joined)
      case Ok(p) => Effect(s.(joined := p, caller := JoinWaiting(s.now)), Done)
      case Err(f) => Effect(s.(caller := JoinFinished(Err(f))), Threw(f)))
    case JoinWaiting(_) =>
      var result := JoinResult(s.joined.cell);
      Effect(s.(caller := JoinFinished(result)), if result.Ok? then Done else Threw(result.fault))
    case _ => Effect(s, Done)
  }

  /** Listen up to the wait for leaved_. */
  function Listen(s: State): Effect {
    match TakeFuture(s.leaved)
    case Ok(p) => Effect(s.(leaved := p, listener := Listening), Done)
    case Err(f) => Effect(s.(listener := Listened(Err(f))), Threw(f))
  }

  function ListenResult(c: Cell<bool>): Result<bool>
    requires !c.Unset?
  {
    if c.Value? then Ok(c.value) else Err(c.fault)
  }

  function ListenEnds(s: State): Effect
    requires !s.leaved.cell.Unset?
  {
    var result := ListenResult(s.leaved.cell);
    Effect(s.(listener := Listened(result)), if result.Ok? then Done else Threw(result.fault))
  }

  /** set_value, then Disconnect through transport_, which must not be null and throws when
      the transport is not open. When it has to stop the client it may not throw: a websocket
      that cannot be closed and a thread that cannot be joined terminate the process. LinkStops
      is the end of a Disconnect that had to wait. */
  function Leave(s: State, onClientThread: bool, closes: bool): Effect {
    var left := WriteLeaved(s, Value(true));
    if left.outcome.Threw? then left
    else if s.link.Detached? then Terminate(left.state, Undefined)
    else if !s.link.open then Effect(left.state, Threw(LogicFault))
    else if s.link.done then left
    else if !closes then Terminate(left.state, StandardFault)
    else if onClientThread || !s.link.joinable then Terminate(left.state, JoinFault)
    else left
  }

  function OnAttach(s: State, link: Link): Effect {
    if s.link.Attached? then Effect(s, Threw(LogicFault)) else Effect(s.(link := link), Done)
  }

  function OnDetach(s: State): Effect {
    if s.link.Detached? then Effect(s, Threw(LogicFault)) else Effect(s.(link := Detached), Done)
  }

  // --------------------------------------------------------- heartbeat thread

  /** Whether HearbeatController can take its next step now. */
  predicate BeatReady(s: State) {
    match s.heartbeat
    case Sleeping(since) => s.now >= since + 20.0
    case Waiting(since) => !s.pong.cell.Unset? || s.now >= since + 4.0
    case Getting => !s.pong.cell.Unset?
    case NotStarted => false
    case Expired => false
    case Stopped => false
    case _ => true
  }

  /** An exception that escapes the controller terminates the process. */
  function Escaping(e: Effect): Effect {
    if e.outcome.Threw? then Terminate(e.state, e.outcome.fault) else e
  }

  function Beat(s: State): Effect
    requires BeatReady(s)
  {
    match s.heartbeat
    case Sleeping(_) => Effect(s.(heartbeat := Dispatching), Done)
    case Dispatching =>
      Effect(s.(queue := s.queue + [SendPing], heartbeat := TakingFuture), Done)
    case TakingFuture => (
      match TakeFuture(s.pong)
      case Ok(p) => Effect(s.(pong := p, heartbeat := Waiting(s.now)), Done)
      case Err(f) => Terminate(s, f))
    case Waiting(_) =>
      Effect(s.(heartbeat := if s.pong.cell.Unset? then TimedOut else Getting), Done)
    case TimedOut =>
      Escaping(WritePong(s.(heartbeat := Getting), Value(false)))
    case Getting => BeatGet(s)
    case Resetting =>
      Effect(s.(pong := Fresh(), heartbeat := Sleeping(s.now)), Done)
    case Failing =>
      Escaping(WriteLeaved(s.(heartbeat := Expired), Failed(TimeoutFault)))
    case _ => Effect(s, Done)
  }

  /** get: a stored NetworkError is reported on leaved_ and the loop goes on. */
  function BeatGet(s: State): Effect
    requires !s.pong.cell.Unset?
  {
    match s.pong.cell
    case Value(alive) => Effect(s.(heartbeat := if alive then Resetting else Failing), Done)
    case Failed(f) =>
      if IsNetworkFault(f)
      then Escaping(WriteLeaved(s.(heartbeat := Resetting), Failed(NetworkFault)))
      else Terminate(s, f)
  }

  // ------------------------------------------------------------------- labels

  datatype Label =
    | Join(realm: string)            // Join is called and sets ESTABLISHING
    | CallerMoves                    // the next control point inside Join
    | Listens                        // Listen is called
    | ListenReturns
    | Register(name: string, fn: Operation)
    | Leaves(onClientThread: bool, closes: bool)  // closes: client_.close reports no error
    | Attach(link: Link)             // OnAttach with a transport in that state
    | Detach
    | LinkOpens                      // open_ becomes true
    | LinkEnds                       // done_ becomes true
    | LinkStops                      // the thread is joined and open_ becomes false again
    | Receive(fields: seq<Json>, delivered: bool)
    | Garbled                        // a payload json::parse rejects
    | RunsTask(delivered: bool)
    | Beats
    | WakesSpuriously
    | Tick(d: real)

  predicate Enabled(s: State, l: Label) {
    && !s.crashed
    && match l
       case Join(_) => s.caller.Idle? || s.caller.JoinFinished?
       case CallerMoves => CallerReady(s)
       case Listens => !s.listener.Listening?
       case ListenReturns => s.listener.Listening? && !s.leaved.cell.Unset?
       case Attach(link) => link.Attached?
       case LinkOpens => s.link.Attached?
       case LinkEnds => s.link.Attached?
       case LinkStops => s.link.Attached?
       case RunsTask(_) => s.queue != []
       case Beats => BeatReady(s)
       case WakesSpuriously => s.heartbeat.Sleeping?
       case Tick(d) => d > 0.0
       case _ => true
  }

  function Do(s: State, l: Label): Effect
    requires Enabled(s, l)
  {
    match l
    case Join(realm) => Effect(s.(phase := Establishing, caller := JoinDispatching(realm)), Done)
    case CallerMoves => CallerStep(s)
    case Listens => Listen(s)
    case ListenReturns => ListenEnds(s)
    case Register(name, fn) => Effect(s.(operations := s.operations[name := fn]), Done)
    case Leaves(onClientThread, closes) => Leave(s, onClientThread, closes)
    case Attach(link) => OnAttach(s, link)
    case Detach => OnDetach(s)
    case LinkOpens => Effect(s.(link := s.link.(open := true)), Done)
    case LinkEnds => Effect(s.(link := s.link.(done := true)), Done)
    case LinkStops => Effect(s.(link := s.link.(open := false, joinable := false)), Done)
    case Receive(fields, delivered) => OnMessage(s, fields, delivered)
    case Garbled => Effect(s, Threw(ParseFault))
    case RunsTask(delivered) => RunTask(s, delivered)
    case Beats => Beat(s)
    case WakesSpuriously => Effect(s.(heartbeat := Stopped), Done)
    case Tick(d) => Effect(s.(now := s.now + d), Done)
  }

  /** Steps of the client thread, whose function is client_t::run: nothing in it catches. */
  predicate OnClientThread(l: Label) {
    l.Receive? || l.Garbled? || l.RunsTask? || (l.Leaves? && l.onClientThread)
  }

  /** The step ends the process: it terminates it outright or lets an exception escape the
      client thread. Schedules may go on after such an exception, which only makes what holds
      of every schedule stronger. */
  predicate EndsProcess(s: State, l: Label)
    requires Enabled(s, l)
  {
    Do(s, l).outcome.Terminated? || (OnClientThread(l) && Do(s, l).outcome.Threw?)
  }

  /** A label that is not enabled leaves the state alone; runs never take one. */
  function Step(s: State, l: Label): State {
    if Enabled(s, l) then Do(s, l).state else s
  }

  // --------------------------------------------------------------------- runs

  function Last<T>(xs: seq<T>): T
    requires xs != []
  {
    xs[|xs| - 1]
  }

  function Front<T>(xs: seq<T>): seq<T>
    requires xs != []
  {
    xs[..|xs| - 1]
  }

  function Exec(ls: seq<Label>): State {
    if ls == [] then Init() else Step(Exec(Front(ls)), Last(ls))
  }

  /** Every label of a run is enabled where it is taken. */
  predicate Run(ls: seq<Label>) {
    ls == [] || (Run(Front(ls)) && Enabled(Exec(Front(ls)), Last(ls)))
  }

  /** How often an event described by p happens along a schedule. */
  ghost function Tally(p: (State, Label) -> bool, ls: seq<Label>): nat {
    if ls == [] then 0
    else Tally(p, Front(ls)) + if p(Exec(Front(ls)), Last(ls)) then 1 else 0
  }

  lemma {:induction false} RunPrefix(ls: seq<Label>, i: nat)
    requires Run(ls) && i <= |ls|
    ensures Run(ls[..i])
  {
    if i == |ls| {
      assert ls[..i] == ls;
    } else {
      assert Front(ls)[..i] == ls[..i];
      RunPrefix(Front(ls), i);
    }
  }

  /** One step later: the form in which run properties are used at an index. */
  lemma {:induction false} RunAt(ls: seq<Label>, i: nat)
    requires Run(ls) && i < |ls|
    ensures Run(ls[..i]) && Enabled(Exec(ls[..i]), ls[i])
    ensures Exec(ls[..i + 1]) == Do(Exec(ls[..i]), ls[i]).state
  {
    RunPrefix(ls, i + 1);
    assert Front(ls[..i + 1]) == ls[..i] && Last(ls[..i + 1]) == ls[i];
  }
}
