/**
 What each label may change, without the branches that decide it. The invariants are
 proved against this relation; StepMoves shows that every enabled step satisfies it.
 */
module SessionMoves {
  import opened Faults
  import opened JsonValues
  import opened Promises
  import opened SessionModel

  /** A WELCOME consumed while the session is establishing. */
  predicate ConsumesWelcome(s: State, l: Label) {
    l.Receive? && MessageTag(l.fields) == Ok(WELCOME) && s.phase == Establishing
  }

  predicate StartsJoin(s: State, l: Label) {
    l.Join?
  }

  /** A PONG that finds the promise empty. */
  predicate AcceptsPong(s: State, l: Label) {
    l.Receive? && MessageTag(l.fields) == Ok(PONG) && s.pong.cell.Unset?
  }

  /** A message SendMessage cannot get rid of, with a NetworkError. */
  predicate Unsendable(s: State, delivered: bool) {
    !s.link.Connected() || (s.sessionId != 0 && !delivered)
  }

  /** The io thread runs a ping the transport does not take. */
  predicate RefusesPing(s: State, l: Label) {
    l.RunsTask? && s.queue != [] && s.queue[0].SendPing? && Unsendable(s, l.delivered)
  }

  predicate IsHello(m: seq<Json>) {
    m != [] && m[0] == JInt(HELLO)
  }

  predicate IsPing(m: seq<Json>) {
    m != [] && m[0] == JInt(PING)
  }

  predicate IsReply(m: seq<Json>) {
    m != [] && (m[0] == JInt(RESULT) || m[0] == JInt(ERROR))
  }

  /** A promise is left alone or receives its one value. */
  ghost predicate Settles<T(!new)>(before: Promise<T>, after: Promise<T>) {
    || after == before
    || (before.cell.Unset? && !after.cell.Unset? && after == before.(cell := after.cell))
  }

  ghost predicate MessageMoves(s: State, l: Label, t: State)
    requires l.Receive?
  {
    && t == s.(phase := t.phase, sessionId := t.sessionId, joined := t.joined, leaved := t.leaved,
               pong := t.pong, heartbeat := t.heartbeat, wire := t.wire, crashed := t.crashed)
    && (if ConsumesWelcome(s, l) then
          && t.phase == Established && t.wire == s.wire
          && if s.heartbeat.NotStarted?
             then t.heartbeat == Sleeping(s.now) && !t.crashed
             else t.heartbeat == s.heartbeat && t.crashed && t.sessionId == s.sessionId
        else t == s.(joined := t.joined, leaved := t.leaved, pong := t.pong, wire := t.wire))
    && t.pong == (if AcceptsPong(s, l) then s.pong.(cell := Value(true)) else s.pong)
    && Settles(s.leaved, t.leaved) && Settles(s.joined, t.joined)
    && (t.leaved != s.leaved ==> l.fields == [])
    && (t.wire == s.wire || (s.sessionId != 0 && exists m | IsReply(m) :: t.wire == s.wire + [m]))
  }

  ghost predicate TaskMoves(s: State, t: State) {
    && s.queue != []
    && t == s.(queue := s.queue[1..], joined := t.joined, leaved := t.leaved, pong := t.pong, wire := t.wire)
    && Settles(s.leaved, t.leaved) && Settles(s.joined, t.joined)
    && (t.pong == s.pong
        || (s.pong.cell.Unset? && t.pong == s.pong.(cell := Value(false)) && !t.leaved.cell.Unset?))
    && (s.queue[0].SayHello? ==> t.leaved == s.leaved && t.pong == s.pong)
    && (s.queue[0].SendPing? ==> t.joined == s.joined)
    && (t.wire == s.wire || t.wire == s.wire + [TaskMessage(s.queue[0])])
    && (t.wire != s.wire ==> (s.queue[0].SayHello? <==> s.sessionId == 0))
  }

  function TaskMessage(task: Task): seq<Json> {
    match task
    case SayHello(realm) => HelloFields(realm)
    case SendPing => PingFields()
  }

  ghost predicate CallerMoved(s: State, t: State) {
    && t == s.(queue := t.queue, joined := t.joined, caller := t.caller)
    && t.joined.cell == s.joined.cell
    && match s.caller
       case JoinDispatching(realm) =>
         t.queue == s.queue + [SayHello(realm)] && t.joined == s.joined && t.caller == JoinTakingFuture
       case JoinTakingFuture =>
         && t.queue == s.queue
         && if s.joined.retrieved
            then t.joined == s.joined && t.caller == JoinFinished(Err(FutureAlreadyRetrieved))
            else t.joined.retrieved && t.caller == JoinWaiting(s.now)
       case JoinWaiting(since) =>
         && t.queue == s.queue && t.joined == s.joined
         && t.caller == JoinFinished(JoinResult(s.joined.cell))
         && (s.joined.cell.Unset? ==> s.now >= since + 16.0)
       case _ => false
  }

  ghost predicate BeatMoved(s: State, t: State) {
    && BeatReady(s) && t == Beat(s).state
    && t == s.(queue := t.queue, leaved := t.leaved, pong := t.pong, heartbeat := t.heartbeat, crashed := t.crashed)
    && Settles(s.leaved, t.leaved)
    && !t.heartbeat.NotStarted? && !t.heartbeat.Stopped?
  }

  ghost predicate Moves(s: State, l: Label, t: State) {
    && !s.crashed
    && match l
       case Receive(_, _) => MessageMoves(s, l, t)
       case Garbled => t == s
       case RunsTask(_) => TaskMoves(s, t)
       case CallerMoves => CallerMoved(s, t)
       case Beats => BeatMoved(s, t)
       case Join(realm) =>
         (s.caller.Idle? || s.caller.JoinFinished?) && t == s.(phase := Establishing, caller := JoinDispatching(realm))
       case Listens =>
         && !s.listener.Listening?
         && t == s.(leaved := t.leaved, listener := t.listener) && t.leaved == s.leaved.(retrieved := true)
         && t.listener == (if s.leaved.retrieved then Listened(Err(FutureAlreadyRetrieved)) else Listening)
       case ListenReturns =>
         s.listener.Listening? && !s.leaved.cell.Unset?
         && t == s.(listener := Listened(if s.leaved.cell.Value? then Ok(s.leaved.cell.value)
                                         else Err(s.leaved.cell.fault)))
       case Register(name, fn) => t == s.(operations := s.operations[name := fn])
       case Leaves(_, _) =>
         t == s.(leaved := t.leaved, crashed := t.crashed) && Settles(s.leaved, t.leaved)
       case WakesSpuriously => s.heartbeat.Sleeping? && t == s.(heartbeat := Stopped)
       case Tick(d) => d > 0.0 && t == s.(now := s.now + d)
       case _ => t == s.(link := t.link)
  }

  lemma WelcomeMoves(s: State, l: Label)
    requires l.Receive? && !s.crashed && MessageTag(l.fields) == Ok(WELCOME)
    ensures MessageMoves(s, l, ProcessWelcome(s, l.fields).state)
  {
  }

  lemma CallMoves(s: State, l: Label)
    requires l.Receive? && MessageTag(l.fields) == Ok(CALL)
    ensures MessageMoves(s, l, ProcessCall(s, l.fields, l.delivered).state)
  {
    var e := ProcessCall(s, l.fields, l.delivered);
    var call := ReadCall(l.fields);
    if call.Ok? && e.state != s {
      assert e.state.wire == s.wire + [Last(e.state.wire)];
      assert IsReply(Last(e.state.wire));
    }
  }

  lemma ReceiveMoves(s: State, l: Label)
    requires l.Receive? && !s.crashed
    ensures MessageMoves(s, l, OnMessage(s, l.fields, l.delivered).state)
  {
    if MessageTag(l.fields) == Ok(WELCOME) {
      WelcomeMoves(s, l);
    } else if MessageTag(l.fields) == Ok(CALL) {
      CallMoves(s, l);
    }
  }

  lemma HelloMoves(s: State, rest: State, realm: string, delivered: bool)
    requires s.queue != [] && s.queue[0] == SayHello(realm) && rest == s.(queue := s.queue[1..])
    ensures TaskMoves(s, RunHello(rest, realm, delivered).state)
  {
  }

  lemma PingMoves(s: State, rest: State, delivered: bool)
    requires s.queue != [] && s.queue[0] == SendPing && rest == s.(queue := s.queue[1..])
    ensures TaskMoves(s, RunPing(rest, delivered).state)
  {
  }

  lemma BeatMoves(s: State)
    requires BeatReady(s)
    ensures BeatMoved(s, Beat(s).state)
  {
  }

  lemma StepMoves(s: State, l: Label)
    requires Enabled(s, l)
    ensures Moves(s, l, Step(s, l))
  {
    match l {
      case Receive(_, _) => ReceiveMoves(s, l);
      case Beats => BeatMoves(s);
      case RunsTask(delivered) =>
        match s.queue[0] {
          case SayHello(realm) => HelloMoves(s, s.(queue := s.queue[1..]), realm, delivered);
          case SendPing => PingMoves(s, s.(queue := s.queue[1..]), delivered);
        }
      case _ =>
    }
  }

  /** The last step of a run, as a move. */
  lemma {:induction false} LastMoves(ls: seq<Label>)
    requires Run(ls) && ls != []
    ensures Run(Front(ls)) && Moves(Exec(Front(ls)), Last(ls), Exec(ls))
  {
    StepMoves(Exec(Front(ls)), Last(ls));
  }

  /** The step at index i of a run, as a move. */
  lemma {:induction false} MovesAt(ls: seq<Label>, i: nat)
    requires Run(ls) && i < |ls|
    ensures Run(ls[..i]) && Moves(Exec(ls[..i]), ls[i], Exec(ls[..i + 1]))
  {
    RunAt(ls, i);
    StepMoves(Exec(ls[..i]), ls[i]);
  }
}
