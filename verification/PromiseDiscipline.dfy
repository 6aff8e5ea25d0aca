/**
 With one Join, a connection that stays up and a peer that answers as the protocol asks,
 no interleaving of the three threads writes a promise twice or ends the process.
 */
module PromiseDiscipline {
  import opened Faults
  import opened JsonValues
  import opened Promises
  import opened SessionModel
  import opened SessionMoves
  import opened SessionSafety
  import opened ProcessEnd

  /** The peer's answer to HELLO. */
  predicate AnswersHello(s: State, l: Label) {
    l.Receive? && (MessageTag(l.fields) == Ok(WELCOME) || MessageTag(l.fields) == Ok(ABORT))
  }

  predicate IsPongLabel(s: State, l: Label) {
    l.Receive? && MessageTag(l.fields) == Ok(PONG)
  }

  function HellosOn(wire: seq<seq<Json>>): nat {
    if wire == [] then 0 else HellosOn(Front(wire)) + One(IsHello(Last(wire)))
  }

  function PingsOn(wire: seq<seq<Json>>): nat {
    if wire == [] then 0 else PingsOn(Front(wire)) + One(IsPing(Last(wire)))
  }

  function HelloTasks(queue: seq<Task>): nat {
    if queue == [] then 0 else One(queue[0].SayHello?) + HelloTasks(queue[1..])
  }

  function PingTasks(queue: seq<Task>): nat {
    if queue == [] then 0 else One(queue[0].SendPing?) + PingTasks(queue[1..])
  }

  /** Nobody leaves; Join is called once; dispatched messages reach the wire; WELCOME or
      ABORT comes once and after HELLO; every message is non-empty; every PONG answers the
      one PING that is unanswered; and when the wait for it is over, as many PONGs have come
      as PINGs were dispatched. */
  predicate OrderlyLabel(s: State, l: Label, joins: nat, answers: nat, pongs: nat, pings: nat) {
    && !l.Leaves?
    && (l.Join? ==> joins == 0)
    && (l.RunsTask? ==> s.link.Connected() && l.delivered)
    && (l.Receive? ==> l.fields != [])
    && (AnswersHello(s, l) ==> HellosOn(s.wire) > 0 && answers == 0)
    && (IsPongLabel(s, l) ==> PingsOn(s.wire) == pongs + 1)
    && (l.Beats? && s.heartbeat.Waiting? ==> pongs == pings)
  }

  ghost predicate Orderly(ls: seq<Label>)
    requires ls != []
  {
    OrderlyLabel(Exec(Front(ls)), Last(ls), Tally(StartsJoin, Front(ls)),
                 Tally(AnswersHello, Front(ls)), Tally(IsPongLabel, Front(ls)), Tally(DispatchesPing, Front(ls)))
  }

  ghost predicate OrderlyRun(ls: seq<Label>) {
    ls == [] || (OrderlyRun(Front(ls)) && Enabled(Exec(Front(ls)), Last(ls)) && Orderly(ls))
  }

  lemma {:induction false} OrderlyIsRun(ls: seq<Label>)
    requires OrderlyRun(ls)
    ensures Run(ls)
  {
    if ls != [] {
      OrderlyIsRun(Front(ls));
    }
  }

  /** What an orderly run keeps, given how many joins, answers and pings it had. */
  predicate Tidy(s: State, joins: nat, answers: nat, pings: nat) {
    && !s.crashed
    && s.leaved.cell.Unset?
    && s.pong.cell != Value(false)
    && !s.heartbeat.TimedOut? && !s.heartbeat.Failing? && !s.heartbeat.Expired?
    && (answers == 0 ==> s.joined.cell.Unset? && s.sessionId == 0 && s.heartbeat.NotStarted?)
    && (answers > 0 ==> HellosOn(s.wire) > 0)
    && joins <= 1
    && HelloTasks(s.queue) + One(s.caller.JoinDispatching?) + HellosOn(s.wire) == joins
    && PingTasks(s.queue) + PingsOn(s.wire) <= pings
  }

  lemma HelloTasksAppend(queue: seq<Task>, task: Task)
    ensures HelloTasks(queue + [task]) == HelloTasks(queue) + One(task.SayHello?)
    ensures PingTasks(queue + [task]) == PingTasks(queue) + One(task.SendPing?)
  {
    if queue != [] {
      HelloTasksAppend(queue[1..], task);
      assert (queue + [task])[1..] == queue[1..] + [task];
    }
  }

  lemma WireAppend(wire: seq<seq<Json>>, m: seq<Json>)
    ensures HellosOn(wire + [m]) == HellosOn(wire) + One(IsHello(m))
    ensures PingsOn(wire + [m]) == PingsOn(wire) + One(IsPing(m))
  {
    assert Front(wire + [m]) == wire;
  }

  /** A step that fails because a promise was already written; Join and Listen only read. */
  predicate WritesTwice(s: State, l: Label)
    requires Enabled(s, l)
  {
    var out := Do(s, l).outcome;
    !l.CallerMoves? && !l.ListenReturns? && (out == Threw(PromiseAlreadySatisfied) || out == Terminated(PromiseAlreadySatisfied))
  }

  lemma {:induction false} OrderlyMessage(s: State, l: Label, joins: nat, answers: nat, pings: nat)
    requires l.Receive? && Tidy(s, joins, answers, pings) && l.fields != []
    requires AnswersHello(s, l) ==> HellosOn(s.wire) > 0 && answers == 0
    requires IsPongLabel(s, l) ==> s.pong.cell.Unset?
    ensures var e := OnMessage(s, l.fields, l.delivered);
      && e.outcome != Threw(PromiseAlreadySatisfied) && !e.outcome.Terminated?
      && Tidy(e.state, joins, answers + One(AnswersHello(s, l)), pings)
  {
    ReceiveMoves(s, l);
    var t := OnMessage(s, l.fields, l.delivered).state;
    OrderlyOutcome(s, l);
    if AnswersHello(s, l) {
      AnswerSendsNothing(s, l);
    } else {
      NoAnswerKeepsJoined(s, l);
    }
    if t.wire != s.wire {
      var m :| IsReply(m) && t.wire == s.wire + [m];
      WireAppend(s.wire, m);
    }
  }

  lemma {:induction false} OrderlyOutcome(s: State, l: Label)
    requires l.Receive? && !s.crashed && l.fields != []
    requires AnswersHello(s, l) ==> s.joined.cell.Unset? && s.heartbeat.NotStarted?
    requires IsPongLabel(s, l) ==> s.pong.cell.Unset?
    ensures var e := OnMessage(s, l.fields, l.delivered);
      e.outcome != Threw(PromiseAlreadySatisfied) && !e.outcome.Terminated?
  {
  }

  lemma AnswerSendsNothing(s: State, l: Label)
    requires AnswersHello(s, l)
    ensures OnMessage(s, l.fields, l.delivered).state.wire == s.wire
  {
  }

  lemma NoAnswerKeepsJoined(s: State, l: Label)
    requires l.Receive? && !AnswersHello(s, l)
    ensures OnMessage(s, l.fields, l.delivered).state.joined == s.joined
  {
  }

  /** A task whose message reaches the wire changes nothing but the queue and the wire. */
  lemma {:induction false} DeliveredTask(s: State)
    requires s.queue != [] && s.link.Connected() && (s.queue[0].SayHello? ==> s.sessionId == 0)
    ensures var e := RunTask(s, true);
      && (e.outcome == Done || e.outcome == Threw(NoSession))
      && (e.state == s.(queue := s.queue[1..])
          || e.state == s.(queue := s.queue[1..], wire := s.wire + [TaskMessage(s.queue[0])]))
      && (s.queue[0].SayHello? ==> e.state.wire != s.wire)
  {
  }

  lemma {:induction false} OrderlyTask(s: State, joins: nat, answers: nat, pings: nat)
    requires s.queue != [] && Tidy(s, joins, answers, pings) && s.link.Connected()
    ensures var e := RunTask(s, true);
      && e.outcome != Threw(PromiseAlreadySatisfied) && !e.outcome.Terminated?
      && Tidy(e.state, joins, answers, pings)
  {
    DeliveredTask(s);
    DeliveredIsTidy(s, RunTask(s, true).state, joins, answers, pings);
  }

  lemma {:induction false} DeliveredIsTidy(s: State, t: State, joins: nat, answers: nat, pings: nat)
    requires s.queue != [] && Tidy(s, joins, answers, pings)
    requires t == s.(queue := s.queue[1..])
             || t == s.(queue := s.queue[1..], wire := s.wire + [TaskMessage(s.queue[0])])
    requires s.queue[0].SayHello? ==> t.wire != s.wire
    ensures Tidy(t, joins, answers, pings)
  {
    WireAppend(s.wire, TaskMessage(s.queue[0]));
  }

  lemma {:induction false} OrderlyBeat(s: State, l: Label, joins: nat, answers: nat, pings: nat)
    requires l.Beats? && BeatReady(s) && HeartbeatInv(s) && Tidy(s, joins, answers, pings)
    requires s.heartbeat.Waiting? ==> !s.pong.cell.Unset?
    ensures Beat(s).outcome.Done?
    ensures Tidy(Beat(s).state, joins, answers, pings + One(DispatchesPing(s, l)))
  {
    HelloTasksAppend(s.queue, SendPing);
  }

  lemma {:induction false} OrderlyCaller(s: State, joins: nat, answers: nat, pings: nat)
    requires CallerReady(s) && Tidy(s, joins, answers, pings)
    ensures Tidy(CallerStep(s).state, joins, answers, pings)
  {
    if s.caller.JoinDispatching? {
      HelloTasksAppend(s.queue, SayHello(s.caller.realm));
    }
  }

  lemma {:induction false} OrderlyOther(s: State, l: Label, t: State, joins: nat, answers: nat, pings: nat)
    requires Moves(s, l, t)
    requires !l.Receive? && !l.RunsTask? && !l.Beats? && !l.Leaves? && !l.CallerMoves?
    requires Tidy(s, joins, answers, pings) && (l.Join? ==> joins == 0)
    ensures Tidy(t, joins + One(l.Join?), answers, pings)
  {
  }

  /** The unanswered PING means the current cycle's promise is still empty. */
  lemma {:induction false} PongFindsRoom(s: State, accepted: nat, cycles: nat, pings: nat)
    requires accepted == cycles + One(s.pong.cell == Value(true))
    requires pings == cycles + One(InCycle(s.heartbeat))
    requires PingsOn(s.wire) <= pings && PingsOn(s.wire) == accepted + 1
    requires s.pong.cell != Value(false) && !s.pong.cell.Failed?
    ensures s.pong.cell.Unset?
  {
    match s.pong.cell
    case Value(received) => if received {} else {}
    case _ =>
  }

  /** Tidy, with the counts of the schedule itself. */
  ghost predicate TidyAfter(ls: seq<Label>) {
    && Tidy(Exec(ls), Tally(StartsJoin, ls), Tally(AnswersHello, ls),
            Tally(DispatchesPing, ls))
    && Tally(IsPongLabel, ls) == Tally(AcceptsPong, ls)
  }

  lemma {:induction false} TidyRun(ls: seq<Label>)
    requires OrderlyRun(ls)
    ensures TidyAfter(ls)
    ensures ls != [] ==> !WritesTwice(Exec(Front(ls)), Last(ls))
  {
    if ls != [] {
      TidyRun(Front(ls));
      PongAccepted(ls);
      TidyLast(ls);
    }
  }

  lemma {:induction false} PongAccepted(ls: seq<Label>)
    requires ls != [] && OrderlyRun(ls) && TidyAfter(Front(ls))
    ensures IsPongLabel(Exec(Front(ls)), Last(ls)) ==> Exec(Front(ls)).pong.cell.Unset?
    ensures Last(ls).Beats? && Exec(Front(ls)).heartbeat.Waiting? ==> Exec(Front(ls)).pong.cell == Value(true)
    ensures HeartbeatInv(Exec(Front(ls)))
  {
    var before := Front(ls);
    OrderlyIsRun(before);
    HeartbeatInvRun(before);
    CreditConservation(before);
    if IsPongLabel(Exec(before), Last(ls)) {
      PongFindsRoom(Exec(before), Tally(AcceptsPong, before), Tally(CompletesCycle, before),
                    Tally(DispatchesPing, before));
    }
  }

  lemma TallyLast(p: (State, Label) -> bool, ls: seq<Label>)
    requires ls != []
    ensures Tally(p, ls) == Tally(p, Front(ls)) + One(p(Exec(Front(ls)), Last(ls)))
  {
  }

  lemma {:induction false} TidyLast(ls: seq<Label>)
    requires ls != [] && OrderlyRun(ls) && TidyAfter(Front(ls)) && HeartbeatInv(Exec(Front(ls)))
    requires IsPongLabel(Exec(Front(ls)), Last(ls)) ==> Exec(Front(ls)).pong.cell.Unset?
    requires Last(ls).Beats? && Exec(Front(ls)).heartbeat.Waiting? ==> Exec(Front(ls)).pong.cell == Value(true)
    ensures TidyAfter(ls) && !WritesTwice(Exec(Front(ls)), Last(ls))
  {
    var before := Front(ls);
    TallyLast(StartsJoin, ls);
    TallyLast(AnswersHello, ls);
    TallyLast(IsPongLabel, ls);
    TallyLast(AcceptsPong, ls);
    TallyLast(DispatchesPing, ls);
    OrderlyStep(Exec(before), Last(ls), Exec(ls), Tally(StartsJoin, before), Tally(AnswersHello, before),
                Tally(IsPongLabel, before), Tally(DispatchesPing, before));
  }

  lemma {:induction false} OrderlyStep(s: State, l: Label, t: State, joins: nat, answers: nat, pongs: nat, pings: nat)
    requires Enabled(s, l) && t == Step(s, l)
    requires HeartbeatInv(s) && Tidy(s, joins, answers, pings)
    requires OrderlyLabel(s, l, joins, answers, pongs, pings)
    requires IsPongLabel(s, l) ==> s.pong.cell.Unset?
    requires l.Beats? && s.heartbeat.Waiting? ==> s.pong.cell == Value(true)
    ensures !WritesTwice(s, l) && AcceptsPong(s, l) == IsPongLabel(s, l)
    ensures Tidy(t, joins + One(StartsJoin(s, l)), answers + One(AnswersHello(s, l)),
                 pings + One(DispatchesPing(s, l)))
  {
    if l.Receive? {
      OrderlyMessage(s, l, joins, answers, pings);
    } else if l.RunsTask? {
      OrderlyTask(s, joins, answers, pings);
    } else if l.Beats? {
      OrderlyBeat(s, l, joins, answers, pings);
    } else if l.CallerMoves? {
      OrderlyCaller(s, joins, answers, pings);
    } else {
      StepMoves(s, l);
      OrderlyOther(s, l, t, joins, answers, pings);
    }
  }

  /** Promise discipline: at no point of an orderly run is a promise written twice. */
  lemma {:induction false} NoPromiseWrittenTwice(ls: seq<Label>, i: nat)
    requires OrderlyRun(ls) && i < |ls|
    ensures Enabled(Exec(ls[..i]), ls[i]) && !WritesTwice(Exec(ls[..i]), ls[i])
  {
    OrderlyPrefix(ls, i + 1);
    TidyRun(ls[..i + 1]);
    assert Front(ls[..i + 1]) == ls[..i];
  }

  /** Nor does it ever terminate the process by itself or resolve leaved_. */
  lemma {:induction false} OrderlyNeverFails(ls: seq<Label>)
    requires OrderlyRun(ls)
    ensures !Exec(ls).crashed && Exec(ls).leaved.cell.Unset?
  {
    TidyRun(ls);
  }

  lemma CollisionWritesTwice(s: State, l: Label)
    requires Enabled(s, l) && HeartbeatInv(s) && Collides(s, l)
    ensures WritesTwice(s, l)
  {
    if l.Receive? {
      MessageCollision(s, l);
    } else if l.RunsTask? {
      TaskCollision(s, l);
    }
  }

  lemma MessageCollision(s: State, l: Label)
    requires l.Receive? && MessageCollides(s, l)
    ensures OnMessage(s, l.fields, l.delivered).outcome == Threw(PromiseAlreadySatisfied)
  {
  }

  lemma TaskCollision(s: State, l: Label)
    requires l.RunsTask? && s.queue != [] && Collides(s, l)
    ensures RunTask(s, l.delivered).outcome == Threw(PromiseAlreadySatisfied)
  {
  }

  /** What still ends the process in an orderly run are messages the session rejects: malformed
      ones, types it does not take, calls it cannot answer, a ping without a session id. */
  lemma {:induction false} OrderlyEndsExactly(ls: seq<Label>)
    requires OrderlyRun(ls) && ls != []
    ensures Enabled(Exec(Front(ls)), Last(ls))
    ensures EndsProcess(Exec(Front(ls)), Last(ls)) <==> Rejects(Exec(Front(ls)), Last(ls))
  {
    var s, l := Exec(Front(ls)), Last(ls);
    TidyRun(ls);
    OrderlyIsRun(Front(ls));
    HeartbeatInvRun(Front(ls));
    OrderlyNeverFails(Front(ls));
    WhatEndsTheProcess(Front(ls), l);
    StepMoves(s, l);
    if Collides(s, l) {
      CollisionWritesTwice(s, l);
    }
  }

  lemma {:induction false} OrderlyPrefix(ls: seq<Label>, i: nat)
    requires OrderlyRun(ls) && i <= |ls|
    ensures OrderlyRun(ls[..i])
  {
    if i == |ls| {
      assert ls[..i] == ls;
    } else {
      assert Front(ls)[..i] == ls[..i];
      OrderlyPrefix(Front(ls), i);
    }
  }
}
