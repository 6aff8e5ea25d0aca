/** Concrete runs: the hypotheses of the theorems are met, and their bounds are sharp. */
module SessionWitnesses {
  import opened Faults
  import opened JsonValues
  import opened Promises
  import opened SessionModel
  import opened SessionMoves
  import opened SessionSafety
  import opened SessionTiming
  import opened PromiseDiscipline

  /** A spurious wakeup does kill the heartbeat silently: leaved_ stays unresolved. */
  lemma SilentDeathWhenWoken() returns (ls: seq<Label>)
    ensures Run(ls) && !Exec(ls).crashed
    ensures Exec(ls).heartbeat.Stopped? && Exec(ls).leaved.cell.Unset?
  {
    ls := Joined();
    Extend(ls, WakesSpuriously);
    ls := ls + [WakesSpuriously];
  }

  /** A joined, connected session whose heartbeat has just gone to sleep. */
  predicate Asleep(s: State, now: real) {
    && !s.crashed && s.link == Attached(true, false, true) && s.sessionId == 7 && s.queue == []
    && s.leaved.cell.Unset? && s.heartbeat == Sleeping(now) && s.now == now
    && !s.pong.retrieved && s.caller == JoinFinished(Ok(7))
  }

  lemma Greeted() returns (ls: seq<Label>)
    ensures TimedRun(ls) && Run(ls)
    ensures var s := Exec(ls);
      && !s.crashed && s.link == Attached(true, false, true) && s.sessionId == 0 && s.queue == [] && s.phase == Establishing
      && s.joined == Fresh() && s.leaved == Fresh() && s.pong == Fresh()
      && s.heartbeat == NotStarted && s.now == 0.0 && s.caller == JoinTakingFuture
  {
    var attach, join, hello := Attach(Attached(true, false, true)), Join("realm"), RunsTask(true);
    ls := [];
    Extend(ls, attach);
    ls := ls + [attach];
    Extend(ls, join);
    ls := ls + [join];
    Extend(ls, CallerMoves);
    ls := ls + [CallerMoves];
    Extend(ls, hello);
    ls := ls + [hello];
  }

  lemma Welcomed(s: State)
    requires s.phase == Establishing && s.heartbeat == NotStarted && s.joined.cell.Unset?
    ensures OnMessage(s, [JInt(WELCOME), JInt(7)], true).state
         == s.(phase := Established, heartbeat := Sleeping(s.now), sessionId := 7,
               joined := s.joined.(cell := Value(7)))
  {
  }

  lemma Joined() returns (ls: seq<Label>)
    ensures TimedRun(ls) && Run(ls) && Asleep(Exec(ls), 0.0) && Exec(ls).pong == Fresh()
  {
    var welcome := Receive([JInt(WELCOME), JInt(7)], true);
    ls := Greeted();
    Extend(ls, CallerMoves);
    ls := ls + [CallerMoves];
    Welcomed(Exec(ls));
    Extend(ls, welcome);
    ls := JoinedLast(ls + [welcome]);
  }

  lemma {:induction false} JoinedLast(ls: seq<Label>) returns (more: seq<Label>)
    requires TimedRun(ls) && Run(ls) && !Exec(ls).crashed
    requires Exec(ls).caller.JoinWaiting? && Exec(ls).joined.cell == Value(7)
    ensures more == ls + [CallerMoves] && TimedRun(more) && Run(more)
    ensures Exec(more) == Exec(ls).(caller := JoinFinished(Ok(7)))
  {
    Extend(ls, CallerMoves);
    more := ls + [CallerMoves];
  }

  lemma {:induction false} Slept(ls: seq<Label>, now: real) returns (more: seq<Label>)
    requires TimedRun(ls) && Run(ls) && Asleep(Exec(ls), now)
    ensures more == ls + [Tick(20.0)] + [Beats] + [Beats] && TimedRun(more) && Run(more)
    ensures Exec(more) == Exec(ls).(now := now + 20.0, heartbeat := TakingFuture, queue := [SendPing])
  {
    more := ls;
    Extend(more, Tick(20.0));
    more := more + [Tick(20.0)];
    Extend(more, Beats);
    more := more + [Beats];
    Extend(more, Beats);
    more := more + [Beats];
  }

  /** Sleep, ping and take the future: the heartbeat waits from 20 s later on. */
  lemma {:induction false} Pinged(ls: seq<Label>, now: real) returns (more: seq<Label>)
    requires TimedRun(ls) && Run(ls) && Asleep(Exec(ls), now)
    ensures more == ls + [Tick(20.0), Beats, Beats, RunsTask(true), Beats]
    ensures TimedRun(more) && Run(more)
    ensures Exec(more) == Exec(ls).(wire := Exec(ls).wire + [PingFields()], now := now + 20.0,
              pong := Exec(ls).pong.(retrieved := true), heartbeat := Waiting(now + 20.0))
  {
    more := Slept(ls, now);
    Extend(more, RunsTask(true));
    more := more + [RunsTask(true)];
    Extend(more, Beats);
    more := more + [Beats];
  }

  lemma {:induction false} Completed(ls: seq<Label>, now: real) returns (more: seq<Label>)
    requires TimedRun(ls) && Run(ls) && !Exec(ls).crashed
    requires Exec(ls).heartbeat.Waiting? && Exec(ls).pong.cell == Value(true) && Exec(ls).now == now
    ensures more == ls + [Beats, Beats, Beats] && TimedRun(more) && Run(more)
    ensures Exec(more) == Exec(ls).(pong := Fresh(), heartbeat := Sleeping(now))
  {
    more := ls;
    Extend(more, Beats);
    more := more + [Beats];
    Extend(more, Beats);
    more := more + [Beats];
    Extend(more, Beats);
    more := more + [Beats];
  }

  lemma Ponged(s: State)
    requires s.pong.cell.Unset?
    ensures OnMessage(s, [JInt(PONG), EMPTY_OBJECT], true).state == s.(pong := s.pong.(cell := Value(true)))
  {
  }

  /** One unsolicited PONG right after the heartbeat went to sleep. */
  lemma EarlyPong() returns (ls: seq<Label>)
    ensures TimedRun(ls) && Run(ls) && Asleep(Exec(ls), 0.0)
    ensures Exec(ls).pong == Promise(Value(true), false)
  {
    var pong := Receive([JInt(PONG), EMPTY_OBJECT], true);
    ls := Joined();
    Ponged(Exec(ls));
    Extend(ls, pong);
    ls := ls + [pong];
  }

  /** Nothing arrives between the end of one schedule and the end of a longer one. */
  ghost predicate SilentSince(ls: seq<Label>, more: seq<Label>) {
    ls <= more && forall j :: |ls| <= j < |more| ==> !more[j].Receive?
  }

  lemma {:induction false} SilentTail(ls: seq<Label>, more: seq<Label>, tail: seq<Label>)
    requires SilentSince(ls, more) && forall l :: l in tail ==> !l.Receive?
    ensures SilentSince(ls, more + tail)
  {
  }

  /** 44 s are needed: a peer whose last, unsolicited PONG came just before index i can be
      silent for 44 s while leaved_ is still unresolved. */
  lemma DeadPeerBoundIsSharp() returns (ls: seq<Label>, i: nat)
    ensures TimedRun(ls) && i <= |ls| && !Exec(ls).crashed && Beating(Exec(ls[..i]))
    ensures forall j :: i <= j < |ls| ==> !AcceptsPong(Exec(ls[..j]), ls[j])
    ensures Exec(ls).now == Exec(ls[..i]).now + 44.0 && Exec(ls).leaved.cell.Unset?
  {
    var start := EarlyPong();
    var waiting := SecondCycle(start);
    ls := WaitedOut(waiting, 40.0);
    i := |start|;
    SilentTail(start, waiting, [Tick(4.0)]);
    assert ls[..i] == start;
  }

  /** The early PONG satisfies the first cycle; the second is waiting after 40 s. */
  lemma SecondCycle(start: seq<Label>) returns (ls: seq<Label>)
    requires TimedRun(start) && Run(start) && Asleep(Exec(start), 0.0)
    requires Exec(start).pong == Promise(Value(true), false)
    ensures SilentSince(start, ls) && TimedRun(ls) && Run(ls)
    ensures var s := Exec(ls);
      && !s.crashed && s.queue == [] && s.leaved.cell.Unset? && s.caller.JoinFinished?
      && s.heartbeat == Waiting(40.0) && s.pong.cell.Unset? && s.now == 40.0
  {
    var cycle := [Tick(20.0), Beats, Beats, RunsTask(true), Beats];
    var first := Pinged(start, 0.0);
    SilentTail(start, start, cycle);
    var second := Completed(first, 20.0);
    SilentTail(start, first, [Beats, Beats, Beats]);
    ls := Pinged(second, 20.0);
    SilentTail(start, second, cycle);
  }

  lemma {:induction false} WaitedOut(ls: seq<Label>, now: real) returns (more: seq<Label>)
    requires TimedRun(ls) && Run(ls) && !Exec(ls).crashed && Exec(ls).queue == []
    requires Exec(ls).heartbeat == Waiting(now) && Exec(ls).pong.cell.Unset? && Exec(ls).now == now
    requires Exec(ls).caller.JoinFinished? && Exec(ls).leaved.cell.Unset?
    ensures more == ls + [Tick(4.0)] && TimedRun(more)
    ensures Exec(more) == Exec(ls).(now := now + 4.0)
  {
    Extend(ls, Tick(4.0));
    more := ls + [Tick(4.0)];
  }

  // ------------------------------------------------------------ an orderly run

  /** An orderly run with so many joins, answers to HELLO, PONGs and PINGs. */
  ghost predicate Counted(ls: seq<Label>, joins: nat, answers: nat, pongs: nat, pings: nat) {
    && OrderlyRun(ls)
    && Tally(StartsJoin, ls) == joins
    && Tally(AnswersHello, ls) == answers
    && Tally(IsPongLabel, ls) == pongs
    && Tally(DispatchesPing, ls) == pings
  }

  lemma {:induction false} ExtendOrderly(ls: seq<Label>, l: Label, joins: nat, answers: nat, pongs: nat, pings: nat)
    requires Counted(ls, joins, answers, pongs, pings) && Enabled(Exec(ls), l)
    requires OrderlyLabel(Exec(ls), l, joins, answers, pongs, pings)
    ensures Exec(ls + [l]) == Do(Exec(ls), l).state
    ensures Counted(ls + [l], joins + One(StartsJoin(Exec(ls), l)), answers + One(AnswersHello(Exec(ls), l)),
                    pongs + One(IsPongLabel(Exec(ls), l)), pings + One(DispatchesPing(Exec(ls), l)))
  {
    var more := ls + [l];
    assert Front(more) == ls && Last(more) == l;
    TallyLast(StartsJoin, more);
    TallyLast(AnswersHello, more);
    TallyLast(IsPongLabel, more);
    TallyLast(DispatchesPing, more);
  }

  lemma OrderlyJoin() returns (ls: seq<Label>)
    ensures Counted(ls, 1, 0, 0, 0)
    ensures Exec(ls) == Init().(phase := Establishing, link := Attached(true, false, true),
              caller := JoinDispatching("realm"))
  {
    var attach, join := Attach(Attached(true, false, true)), Join("realm");
    ls := [];
    ExtendOrderly(ls, attach, 0, 0, 0, 0);
    ls := ls + [attach];
    ExtendOrderly(ls, join, 0, 0, 0, 0);
    ls := ls + [join];
  }

  lemma OrderlyGreeting() returns (ls: seq<Label>)
    ensures Counted(ls, 1, 0, 0, 0)
    ensures Exec(ls) == Init().(phase := Establishing, link := Attached(true, false, true),
              caller := JoinTakingFuture, wire := [HelloFields("realm")])
  {
    ls := OrderlyJoin();
    ExtendOrderly(ls, CallerMoves, 1, 0, 0, 0);
    ls := ls + [CallerMoves];
    ExtendOrderly(ls, RunsTask(true), 1, 0, 0, 0);
    ls := ls + [RunsTask(true)];
  }

  lemma {:induction false} OrderlyWelcome(ls: seq<Label>) returns (more: seq<Label>)
    requires Counted(ls, 1, 0, 0, 0) && !Exec(ls).crashed && Exec(ls).phase == Establishing
    requires Exec(ls).heartbeat == NotStarted && Exec(ls).joined.cell.Unset?
    requires Exec(ls).wire == [HelloFields("realm")]
    ensures Counted(more, 1, 1, 0, 0)
    ensures Exec(more) == Exec(ls).(phase := Established, heartbeat := Sleeping(Exec(ls).now),
              sessionId := 7, joined := Exec(ls).joined.(cell := Value(7)))
  {
    var welcome := Receive([JInt(WELCOME), JInt(7)], true);
    Welcomed(Exec(ls));
    WireAppend([], HelloFields("realm"));
    assert [] + [HelloFields("realm")] == Exec(ls).wire;
    ExtendOrderly(ls, welcome, 1, 0, 0, 0);
    more := ls + [welcome];
  }

  lemma {:induction false} OrderlyPing(ls: seq<Label>) returns (more: seq<Label>)
    requires Counted(ls, 1, 1, 0, 0) && !Exec(ls).crashed && Exec(ls).link.Connected() && Exec(ls).queue == []
    requires Exec(ls).heartbeat == Sleeping(Exec(ls).now) && Exec(ls).sessionId == 7 && !Exec(ls).pong.retrieved
    ensures Counted(more, 1, 1, 0, 1)
    ensures Exec(more) == Exec(ls).(now := Exec(ls).now + 20.0, wire := Exec(ls).wire + [PingFields()],
              pong := Exec(ls).pong.(retrieved := true), heartbeat := Waiting(Exec(ls).now + 20.0))
  {
    more := OrderlyWake(ls);
    more := OrderlySend(more);
  }

  lemma {:induction false} OrderlyWake(ls: seq<Label>) returns (more: seq<Label>)
    requires Counted(ls, 1, 1, 0, 0) && !Exec(ls).crashed && Exec(ls).queue == []
    requires Exec(ls).heartbeat == Sleeping(Exec(ls).now)
    ensures Counted(more, 1, 1, 0, 1)
    ensures Exec(more) == Exec(ls).(now := Exec(ls).now + 20.0, queue := [SendPing], heartbeat := TakingFuture)
  {
    more := ls;
    ExtendOrderly(more, Tick(20.0), 1, 1, 0, 0);
    more := more + [Tick(20.0)];
    ExtendOrderly(more, Beats, 1, 1, 0, 0);
    more := OrderlyDispatch(more + [Beats]);
  }

  lemma {:induction false} OrderlyDispatch(ls: seq<Label>) returns (more: seq<Label>)
    requires Counted(ls, 1, 1, 0, 0) && !Exec(ls).crashed && Exec(ls).queue == []
    requires Exec(ls).heartbeat == Dispatching
    ensures Counted(more, 1, 1, 0, 1)
    ensures Exec(more) == Exec(ls).(queue := [SendPing], heartbeat := TakingFuture)
  {
    ExtendOrderly(ls, Beats, 1, 1, 0, 0);
    more := ls + [Beats];
  }

  lemma {:induction false} OrderlySend(ls: seq<Label>) returns (more: seq<Label>)
    requires Counted(ls, 1, 1, 0, 1) && !Exec(ls).crashed && Exec(ls).link.Connected()
    requires Exec(ls).queue == [SendPing] && Exec(ls).sessionId == 7
    requires Exec(ls).heartbeat == TakingFuture && !Exec(ls).pong.retrieved
    ensures Counted(more, 1, 1, 0, 1)
    ensures Exec(more) == Exec(ls).(wire := Exec(ls).wire + [PingFields()], queue := [],
              pong := Exec(ls).pong.(retrieved := true), heartbeat := Waiting(Exec(ls).now))
  {
    ExtendOrderly(ls, RunsTask(true), 1, 1, 0, 1);
    more := ls + [RunsTask(true)];
    ExtendOrderly(more, Beats, 1, 1, 0, 1);
    more := more + [Beats];
  }

  lemma {:induction false} OrderlyPong(ls: seq<Label>) returns (more: seq<Label>)
    requires Counted(ls, 1, 1, 0, 1) && !Exec(ls).crashed && Exec(ls).heartbeat.Waiting?
    requires Exec(ls).pong.cell.Unset? && PingsOn(Exec(ls).wire) == 1
    ensures Counted(more, 1, 1, 1, 1)
    ensures Exec(more) == Exec(ls).(pong := Fresh(), heartbeat := Sleeping(Exec(ls).now))
  {
    var pong := Receive([JInt(PONG), EMPTY_OBJECT], true);
    Ponged(Exec(ls));
    ExtendOrderly(ls, pong, 1, 1, 0, 1);
    more := OrderlyCompletion(ls + [pong]);
  }

  lemma {:induction false} OrderlyCompletion(ls: seq<Label>) returns (more: seq<Label>)
    requires Counted(ls, 1, 1, 1, 1) && !Exec(ls).crashed && Exec(ls).heartbeat.Waiting?
    requires Exec(ls).pong.cell == Value(true)
    ensures Counted(more, 1, 1, 1, 1)
    ensures Exec(more) == Exec(ls).(pong := Fresh(), heartbeat := Sleeping(Exec(ls).now))
  {
    more := ls;
    ExtendOrderly(more, Beats, 1, 1, 1, 1);
    more := more + [Beats];
    ExtendOrderly(more, Beats, 1, 1, 1, 1);
    more := more + [Beats];
    ExtendOrderly(more, Beats, 1, 1, 1, 1);
    more := more + [Beats];
  }

  /** Promise discipline is not vacuous: a whole heartbeat cycle can pass in order. */
  lemma OrderlyCycle() returns (ls: seq<Label>)
    ensures OrderlyRun(ls) && Tally(IsPongLabel, ls) == 1
    ensures Exec(ls).phase == Established && Exec(ls).heartbeat == Sleeping(20.0)
  {
    var greeting := OrderlyGreeting();
    var welcomed := OrderlyWelcome(greeting);
    var pinged := OrderlyPing(welcomed);
    WireAppend([], HelloFields("realm"));
    WireAppend([HelloFields("realm")], PingFields());
    assert [] + [HelloFields("realm")] == [HelloFields("realm")];
    ls := OrderlyPong(pinged);
  }
}
