/** Exactly which steps end the process, stated on messages, phases and promises. */
module ProcessEnd {
  import opened Faults
  import opened JsonValues
  import opened Promises
  import opened SessionModel
  import opened SessionMoves
  import opened SessionSafety

  /** A call the session throws on: malformed, its function throws, or the reply cannot go. */
  predicate Unanswerable(s: State, l: Label)
    requires l.Receive?
  {
    || ReadCall(l.fields).Err?
    || OperationThrows(s, ReadCall(l.fields).value)
    || !s.link.Connected() || s.sessionId == 0 || !l.delivered
  }

  predicate OperationThrows(s: State, call: CallRequest) {
    call.operation in s.operations && s.operations[call.operation](call.arguments).None?
  }

  /** A message type the session throws on, or a message it cannot read. */
  predicate RejectsMessage(s: State, l: Label)
    requires l.Receive? && l.fields != []
  {
    match MessageTag(l.fields)
    case Err(_) => true
    case Ok(tag) =>
      || tag == HELLO || tag == PING || tag == RESULT
      || (tag == WELCOME && (s.phase != Establishing || (s.heartbeat.NotStarted? && WelcomeId(l.fields).Err?)))
      || (tag == ABORT && AbortReason(l.fields).Err?)
      || (tag == CALL && Unanswerable(s, l))
  }

  /** The client thread throws for a reason no promise has a part in. */
  predicate Rejects(s: State, l: Label) {
    match l
    case Garbled => true
    case Receive(fields, _) => fields != [] && RejectsMessage(s, l)
    case RunsTask(_) => s.queue != [] && s.queue[0].SendPing? && s.link.Connected() && s.sessionId == 0
    case _ => false
  }

  predicate MessageCollides(s: State, l: Label)
    requires l.Receive?
  {
    if l.fields == [] then !s.leaved.cell.Unset?
    else
      match MessageTag(l.fields)
      case Err(_) => false
      case Ok(tag) =>
        || (tag == WELCOME && s.phase == Establishing && s.heartbeat.NotStarted?
            && WelcomeId(l.fields).Ok? && !s.joined.cell.Unset?)
        || (tag == ABORT && AbortReason(l.fields).Ok? && !s.joined.cell.Unset?)
        || (tag == PONG && !s.pong.cell.Unset?)
  }

  /** The client or the heartbeat thread writes a promise that is already written; a Leave on
      another thread throws to its caller. */
  predicate Collides(s: State, l: Label) {
    match l
    case Receive(_, _) => MessageCollides(s, l)
    case RunsTask(delivered) =>
      s.queue != [] &&
      (if s.queue[0].SayHello?
       then !s.joined.cell.Unset? && (s.sessionId != 0 || !s.link.Connected() || !delivered)
       else Unsendable(s, delivered) && !(s.pong.cell.Unset? && s.leaved.cell.Unset?))
    case Leaves(onClientThread, _) => onClientThread && !s.leaved.cell.Unset?
    case Beats =>
      || (s.heartbeat.TimedOut? && !s.pong.cell.Unset?)
      || (s.heartbeat.Failing? && !s.leaved.cell.Unset?)
    case _ => false
  }

  /** A WELCOME consumed while the heartbeat thread exists. */
  predicate ReplacesThread(s: State, l: Label) {
    ConsumesWelcome(s, l) && !s.heartbeat.NotStarted?
  }

  /** A Leave that resolves leaved_ and then has no transport to disconnect. */
  predicate LeavesNoTransport(s: State, l: Label) {
    l.Leaves? && s.leaved.cell.Unset? && s.link.Detached?
  }

  /** A Leave on the client thread whose transport is not open: Disconnect throws there. */
  predicate LeavesClosed(s: State, l: Label) {
    l.Leaves? && l.onClientThread && s.leaved.cell.Unset? && s.link.Attached? && !s.link.open
  }

  /** A Leave whose Disconnect has to stop the client and cannot: the websocket does not
      close, or the thread to be joined is the caller itself or was joined before. */
  predicate CannotStop(s: State, l: Label) {
    && l.Leaves? && s.leaved.cell.Unset? && s.link.Connected()
    && (l.onClientThread || !l.closes || !s.link.joinable)
  }

  predicate LeaveEnds(s: State, l: Label) {
    LeavesNoTransport(s, l) || LeavesClosed(s, l) || CannotStop(s, l)
  }

  predicate Fatal(s: State, l: Label) {
    Rejects(s, l) || Collides(s, l) || ReplacesThread(s, l) || LeaveEnds(s, l)
  }

  lemma CallThrows(s: State, l: Label)
    requires l.Receive?
    ensures var out := ProcessCall(s, l.fields, l.delivered).outcome;
      !out.Terminated? && (out.Threw? <==> Unanswerable(s, l))
  {
  }

  lemma WelcomeThrows(s: State, l: Label)
    requires l.Receive? && l.fields != [] && MessageTag(l.fields) == Ok(WELCOME)
    ensures !ProcessWelcome(s, l.fields).outcome.Done?
       <==> RejectsMessage(s, l) || MessageCollides(s, l) || ReplacesThread(s, l)
  {
  }

  lemma MessageEnds(s: State, l: Label)
    requires l.Receive? && !s.crashed
    ensures EndsProcess(s, l) <==> Fatal(s, l)
  {
    if l.fields != [] && MessageTag(l.fields) == Ok(WELCOME) {
      WelcomeThrows(s, l);
    } else if l.fields != [] && MessageTag(l.fields) == Ok(CALL) {
      CallThrows(s, l);
    }
  }

  lemma TaskEnds(s: State, l: Label)
    requires l.RunsTask? && Enabled(s, l)
    ensures EndsProcess(s, l) <==> Fatal(s, l)
  {
  }

  lemma OtherEnds(s: State, l: Label)
    requires Enabled(s, l) && HeartbeatInv(s) && !l.Receive? && !l.RunsTask?
    ensures EndsProcess(s, l) <==> Fatal(s, l)
  {
  }

  lemma StepEnds(s: State, l: Label)
    requires Enabled(s, l) && HeartbeatInv(s)
    ensures EndsProcess(s, l) <==> Fatal(s, l)
  {
    if l.Receive? {
      MessageEnds(s, l);
    } else if l.RunsTask? {
      TaskEnds(s, l);
    } else {
      OtherEnds(s, l);
    }
  }

  /** At any point of any run, a step ends the process if and only if it is a rejection, a
      collision on a promise, a second heartbeat thread, or one of three kinds of Leave: without
      a transport, on the client thread with a closed one, with a client it cannot stop. */
  lemma {:induction false} WhatEndsTheProcess(ls: seq<Label>, l: Label)
    requires Run(ls) && Enabled(Exec(ls), l)
    ensures EndsProcess(Exec(ls), l) <==> Fatal(Exec(ls), l)
  {
    HeartbeatInvRun(ls);
    StepEnds(Exec(ls), l);
  }
}
