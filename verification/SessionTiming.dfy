/**
 Timed runs: the clock only advances while no thread has anything to do and never past a
 pending timeout; nothing notifies the heartbeat's condition variable. Under that
 scheduling: how long a dead peer goes unnoticed, and what Join returns.
 */
module SessionTiming {
  import opened Faults
  import opened JsonValues
  import opened Promises
  import opened SessionModel
  import opened SessionMoves
  import opened SessionSafety

  // ------------------------------------------------------------ timed schedules

  /** The heartbeat thread is blocked until some time after `until`, or for good. */
  predicate HeartbeatRests(s: State, until: real) {
    match s.heartbeat
    case Sleeping(since) => until <= since + 20.0
    case Waiting(since) => s.pong.cell.Unset? && until <= since + 4.0
    case NotStarted => true
    case Expired => true
    case Stopped => true
    case _ => false
  }

  predicate CallerRests(s: State, until: real) {
    match s.caller
    case JoinWaiting(since) => s.joined.cell.Unset? && until <= since + 16.0
    case Idle => true
    case JoinFinished(_) => true
    case _ => false
  }

  predicate ListenerRests(s: State) {
    s.listener.Listening? ==> s.leaved.cell.Unset?
  }

  predicate Prompt(s: State, l: Label) {
    && !l.WakesSpuriously?
    && (l.Tick? ==> s.queue == [] && ListenerRests(s) && HeartbeatRests(s, s.now + l.d) && CallerRests(s, s.now + l.d))
  }

  predicate TimedRun(ls: seq<Label>) {
    ls == [] || (TimedRun(Front(ls)) && Enabled(Exec(Front(ls)), Last(ls)) && Prompt(Exec(Front(ls)), Last(ls)))
  }

  lemma {:induction false} TimedIsRun(ls: seq<Label>)
    requires TimedRun(ls)
    ensures Run(ls)
  {
    if ls != [] {
      TimedIsRun(Front(ls));
    }
  }

  lemma {:induction false} TimedPrefix(ls: seq<Label>, i: nat)
    requires TimedRun(ls) && i <= |ls|
    ensures TimedRun(ls[..i])
  {
    if i == |ls| {
      assert ls[..i] == ls;
    } else {
      assert Front(ls)[..i] == ls[..i];
      TimedPrefix(Front(ls), i);
    }
  }

  /** A run, timed or not, goes on with any step enabled at its end. */
  lemma {:induction false} Extend(ls: seq<Label>, l: Label)
    requires Run(ls) && Enabled(Exec(ls), l)
    ensures Run(ls + [l]) && Exec(ls + [l]) == Do(Exec(ls), l).state
    ensures TimedRun(ls) && Prompt(Exec(ls), l) ==> TimedRun(ls + [l])
  {
    assert Front(ls + [l]) == ls && Last(ls + [l]) == l;
  }

  lemma {:induction false} LastTimedMoves(ls: seq<Label>)
    requires TimedRun(ls) && ls != []
    ensures TimedRun(Front(ls)) && Prompt(Exec(Front(ls)), Last(ls))
    ensures Moves(Exec(Front(ls)), Last(ls), Exec(ls))
  {
    TimedIsRun(ls);
    LastMoves(ls);
  }

  /** No timeout is ever overdue. */
  predicate OnTime(s: State) {
    && (s.heartbeat.Sleeping? ==> s.heartbeat.since <= s.now <= s.heartbeat.since + 20.0)
    && (s.heartbeat.Waiting? ==> s.heartbeat.since <= s.now <= s.heartbeat.since + 4.0)
    && (s.caller.JoinWaiting? ==> s.caller.since <= s.now <= s.caller.since + 16.0)
  }

  lemma OnTimeMove(s: State, l: Label, t: State)
    requires Moves(s, l, t) && Prompt(s, l) && OnTime(s)
    ensures OnTime(t)
  {
  }

  lemma {:induction false} OnTimeRun(ls: seq<Label>)
    requires TimedRun(ls)
    ensures OnTime(Exec(ls))
  {
    if ls != [] {
      LastTimedMoves(ls);
      OnTimeRun(Front(ls));
      OnTimeMove(Exec(Front(ls)), Last(ls), Exec(ls));
    }
  }

  lemma {:induction false} ClockNeverRunsBack(ls: seq<Label>, i: nat)
    requires Run(ls) && i <= |ls|
    ensures Exec(ls[..i]).now <= Exec(ls).now
  {
    if i == |ls| {
      assert ls[..i] == ls;
    } else {
      assert Front(ls)[..i] == ls[..i];
      LastMoves(ls);
      ClockNeverRunsBack(Front(ls), i);
    }
  }

  // ---------------------------------------------------------- dead-peer bound

  predicate Beating(s: State) {
    !s.heartbeat.NotStarted? && !s.heartbeat.Expired? && !s.heartbeat.Stopped?
  }

  /** When leaved_ will be resolved at the latest if no further PONG is accepted. */
  function Deadline(s: State): real {
    match s.heartbeat
    case Sleeping(since) =>
      if s.pong.cell == Value(true) then since + 44.0
      else if s.pong.cell.Unset? then since + 24.0
      else since + 20.0
    case Waiting(since) => if s.pong.cell.Unset? then since + 4.0 else AfterWait(s)
    case TimedOut => s.now
    case Failing => s.now
    case Resetting => s.now + 24.0
    case _ => AfterWait(s)
  }

  function AfterWait(s: State): real {
    if s.pong.cell == Value(true) then s.now + 24.0
    else if s.pong.cell.Unset? then s.now + 4.0
    else s.now
  }

  lemma DeadlineMove(s: State, l: Label, t: State)
    requires Moves(s, l, t) && Prompt(s, l) && OnTime(s) && HeartbeatInv(s)
    requires Beating(s) && !AcceptsPong(s, l) && !t.crashed && t.leaved.cell.Unset?
    ensures Beating(t) && Deadline(t) <= Deadline(s)
  {
  }

  lemma {:induction false} DeadlineRun(ls: seq<Label>, i: nat)
    requires TimedRun(ls) && i <= |ls| && !Exec(ls).crashed && Exec(ls).leaved.cell.Unset?
    requires Beating(Exec(ls[..i]))
    requires forall j :: i <= j < |ls| ==> !AcceptsPong(Exec(ls[..j]), ls[j])
    ensures Beating(Exec(ls)) && Deadline(Exec(ls)) <= Deadline(Exec(ls[..i]))
  {
    if i == |ls| {
      assert ls[..i] == ls;
    } else {
      var before := Front(ls);
      assert before[..i] == ls[..i];
      LastTimedMoves(ls);
      LeavedGrows(Exec(before), Last(ls), Exec(ls));
      forall j | i <= j < |before| ensures !AcceptsPong(Exec(before[..j]), before[j]) {
        assert before[..j] == ls[..j];
      }
      DeadlineRun(before, i);
      TimedIsRun(before);
      HeartbeatInvRun(before);
      OnTimeRun(before);
      assert ls[..|ls| - 1] == before;
      DeadlineMove(Exec(before), Last(ls), Exec(ls));
    }
  }

  lemma LeavedGrows(s: State, l: Label, t: State)
    requires Moves(s, l, t) && t.leaved.cell.Unset?
    ensures s.leaved.cell.Unset?
  {
  }

  lemma DeadlineAhead(s: State)
    requires OnTime(s) && HeartbeatInv(s) && Beating(s)
    ensures s.now <= Deadline(s) <= s.now + 44.0
    ensures !(s.heartbeat.Sleeping? && s.pong.cell == Value(true)) ==> Deadline(s) <= s.now + 24.0
  {
  }

  /** A silent peer is noticed within 44 s: 20 s of sleep, a cycle an early PONG already
      satisfied, 20 s more, and a 4 s wait. */
  lemma {:induction false} DeadPeerBound(ls: seq<Label>, i: nat)
    requires TimedRun(ls) && i <= |ls| && !Exec(ls).crashed
    requires Beating(Exec(ls[..i]))
    requires forall j :: i <= j < |ls| ==> !AcceptsPong(Exec(ls[..j]), ls[j])
    requires Exec(ls).now > Exec(ls[..i]).now + 44.0
    ensures !Exec(ls).leaved.cell.Unset?
  {
    if Exec(ls).leaved.cell.Unset? {
      PeerStillAlive(ls, i);
    }
  }

  lemma {:induction false} PeerStillAlive(ls: seq<Label>, i: nat)
    requires TimedRun(ls) && i <= |ls| && !Exec(ls).crashed && Exec(ls).leaved.cell.Unset?
    requires Beating(Exec(ls[..i]))
    requires forall j :: i <= j < |ls| ==> !AcceptsPong(Exec(ls[..j]), ls[j])
    ensures Exec(ls).now <= Deadline(Exec(ls[..i]))
    ensures OnTime(Exec(ls[..i])) && HeartbeatInv(Exec(ls[..i]))
    ensures Deadline(Exec(ls[..i])) <= Exec(ls[..i]).now + 44.0
  {
    DeadlineRun(ls, i);
    TimedIsRun(ls);
    HeartbeatInvRun(ls);
    OnTimeRun(ls);
    DeadlineAhead(Exec(ls));
    TimedPrefix(ls, i);
    OnTimeRun(ls[..i]);
    CrashIsFinal(ls, i);
    TimedIsRun(ls[..i]);
    HeartbeatInvRun(ls[..i]);
    DeadlineAhead(Exec(ls[..i]));
  }

  lemma {:induction false} CrashIsFinal(ls: seq<Label>, i: nat)
    requires Run(ls) && i <= |ls| && !Exec(ls).crashed
    ensures !Exec(ls[..i]).crashed
  {
    if i == |ls| {
      assert ls[..i] == ls;
    } else {
      RunAt(ls, i);
    }
  }

  // ------------------------------------------------------------ Listen returns

  lemma ListeningMove(s: State, l: Label, t: State, bound: real)
    requires Moves(s, l, t) && Prompt(s, l) && s.leaved.retrieved
    requires s.listener.Listening? && !s.leaved.cell.Unset? ==> s.now <= bound
    requires s.leaved.cell.Unset? ==> s.now <= bound
    ensures t.leaved.retrieved && (t.listener.Listening? ==> s.listener.Listening?)
    ensures t.listener.Listening? && !t.leaved.cell.Unset? ==> t.now <= bound
  {
  }

  /** A Listen that was waiting when the peer fell silent has ended 44 s later. */
  lemma {:induction false} ListenEndsAfterSilence(ls: seq<Label>, i: nat)
    requires TimedRun(ls) && i <= |ls| && !Exec(ls).crashed
    requires Beating(Exec(ls[..i])) && Exec(ls[..i]).leaved.retrieved
    requires forall j :: i <= j < |ls| ==> !AcceptsPong(Exec(ls[..j]), ls[j])
    requires Exec(ls).now > Exec(ls[..i]).now + 44.0
    ensures !Exec(ls).listener.Listening? && !Exec(ls).leaved.cell.Unset?
  {
    DeadPeerBound(ls, i);
    ListeningUntil(ls, i);
  }

  lemma {:induction false} ListeningUntil(ls: seq<Label>, i: nat)
    requires TimedRun(ls) && i <= |ls| && !Exec(ls).crashed
    requires Beating(Exec(ls[..i])) && Exec(ls[..i]).leaved.retrieved
    requires forall j :: i <= j < |ls| ==> !AcceptsPong(Exec(ls[..j]), ls[j])
    ensures Exec(ls).leaved.retrieved
    ensures Exec(ls).listener.Listening? && !Exec(ls).leaved.cell.Unset? ==>
      Exec(ls).now <= Exec(ls[..i]).now + 44.0
  {
    if i == |ls| {
      assert ls[..i] == ls;
    } else {
      var before := Front(ls);
      assert before[..i] == ls[..i];
      LastTimedMoves(ls);
      forall j | i <= j < |before| ensures !AcceptsPong(Exec(before[..j]), before[j]) {
        assert before[..j] == ls[..j];
      }
      TimedIsRun(ls);
      ListeningUntil(before, i);
      if Exec(before).leaved.cell.Unset? {
        PeerStillAlive(before, i);
      }
      ListeningMove(Exec(before), Last(ls), Exec(ls), Exec(ls[..i]).now + 44.0);
    }
  }

  /** An accepted PONG answers the cycle in progress. */
  predicate InsideWindow(s: State) {
    s.heartbeat.TakingFuture? || s.heartbeat.Waiting?
  }

  predicate Windowed(ls: seq<Label>) {
    forall j :: 0 <= j < |ls| && AcceptsPong(Exec(ls[..j]), ls[j]) ==> InsideWindow(Exec(ls[..j]))
  }

  lemma {:induction false} WindowedPrefix(ls: seq<Label>, i: nat)
    requires Windowed(ls) && i <= |ls|
    ensures Windowed(ls[..i])
  {
    forall j | 0 <= j < i && AcceptsPong(Exec(ls[..i][..j]), ls[..i][j])
      ensures InsideWindow(Exec(ls[..i][..j]))
    {
      assert ls[..i][..j] == ls[..j];
    }
  }

  predicate NoSpareCredit(s: State) {
    s.pong.cell == Value(true) ==> InCycle(s.heartbeat)
  }

  lemma NoSpareCreditMove(s: State, l: Label, t: State)
    requires Moves(s, l, t) && HeartbeatInv(s) && NoSpareCredit(s) && !t.crashed && Prompt(s, l)
    requires AcceptsPong(s, l) ==> InsideWindow(s)
    ensures NoSpareCredit(t)
  {
  }

  lemma {:induction false} NoSpareCreditRun(ls: seq<Label>)
    requires TimedRun(ls) && Windowed(ls) && !Exec(ls).crashed
    ensures NoSpareCredit(Exec(ls))
  {
    if ls != [] {
      var before := Front(ls);
      WindowedPrefix(ls, |ls| - 1);
      LastTimedMoves(ls);
      NoSpareCreditRun(before);
      TimedIsRun(before);
      HeartbeatInvRun(before);
      assert ls[..|ls| - 1] == before;
      NoSpareCreditMove(Exec(before), Last(ls), Exec(ls));
    }
  }

  /** When every accepted PONG arrived inside a wait window, 24 s suffice. */
  lemma {:induction false} DeadPeerBoundInWindow(ls: seq<Label>, i: nat)
    requires TimedRun(ls) && i <= |ls| && !Exec(ls).crashed && Windowed(ls)
    requires Beating(Exec(ls[..i]))
    requires forall j :: i <= j < |ls| ==> !AcceptsPong(Exec(ls[..j]), ls[j])
    requires Exec(ls).now > Exec(ls[..i]).now + 24.0
    ensures !Exec(ls).leaved.cell.Unset?
  {
    if Exec(ls).leaved.cell.Unset? {
      PeerStillAlive(ls, i);
      TimedPrefix(ls, i);
      TimedIsRun(ls);
      CrashIsFinal(ls, i);
      WindowedPrefix(ls, i);
      NoSpareCreditRun(ls[..i]);
      DeadlineAhead(Exec(ls[..i]));
    }
  }

  // ------------------------------------------------------------ Join agreement

  /** What a step offers to joined_, decided without looking at joined_. */
  function JoinAnswer(s: State, l: Label): Cell<uint32> {
    match l
    case Receive(fields, _) =>
      if MessageTag(fields) == Ok(WELCOME) then
        if s.phase == Establishing && s.heartbeat.NotStarted? && WelcomeId(fields).Ok?
        then Value(WelcomeId(fields).value) else Unset
      else if MessageTag(fields) == Ok(ABORT) then
        if AbortReason(fields).Ok? then Failed(AbortFault(AbortReason(fields).value)) else Unset
      else Unset
    case RunsTask(delivered) =>
      if s.queue == [] || s.queue[0].SendPing? then Unset
      else if s.sessionId != 0 then Failed(LogicFault)
      else if s.link.Connected() && delivered then Unset
      else Failed(StandardFault)
    case _ => Unset
  }

  /** The first answer of a schedule. */
  function FirstAnswer(ls: seq<Label>): Cell<uint32> {
    if ls == [] then Unset
    else if !FirstAnswer(Front(ls)).Unset? then FirstAnswer(Front(ls))
    else JoinAnswer(Exec(Front(ls)), Last(ls))
  }

  lemma AnswerReceive(s: State, l: Label)
    requires l.Receive? && !s.crashed
    ensures OnMessage(s, l.fields, l.delivered).state.joined.cell
         == if s.joined.cell.Unset? then JoinAnswer(s, l) else s.joined.cell
  {
    if MessageTag(l.fields) == Ok(CALL) {
      CallKeepsJoined(s, l.fields, l.delivered);
    }
  }

  lemma CallKeepsJoined(s: State, fields: seq<Json>, delivered: bool)
    ensures ProcessCall(s, fields, delivered).state.joined == s.joined
  {
  }

  lemma AnswerTask(s: State, l: Label)
    requires l.RunsTask? && s.queue != []
    ensures RunTask(s, l.delivered).state.joined.cell
         == if s.joined.cell.Unset? then JoinAnswer(s, l) else s.joined.cell
  {
  }

  lemma AnswerStep(s: State, l: Label)
    requires Enabled(s, l)
    ensures Step(s, l).joined.cell == if s.joined.cell.Unset? then JoinAnswer(s, l) else s.joined.cell
  {
    if l.Receive? {
      AnswerReceive(s, l);
    } else if l.RunsTask? {
      AnswerTask(s, l);
    } else {
      StepMoves(s, l);
      OthersKeepJoined(s, l, Step(s, l));
    }
  }

  lemma OthersKeepJoined(s: State, l: Label, t: State)
    requires Moves(s, l, t) && !l.Receive? && !l.RunsTask?
    ensures t.joined.cell == s.joined.cell
  {
  }

  /** joined_ holds exactly the first answer. */
  lemma {:induction false} JoinedHoldsFirstAnswer(ls: seq<Label>)
    requires Run(ls)
    ensures Exec(ls).joined.cell == FirstAnswer(ls)
  {
    if ls != [] {
      JoinedHoldsFirstAnswer(Front(ls));
      AnswerStep(Exec(Front(ls)), Last(ls));
    }
  }

  lemma {:induction false} FirstAnswerIsFinal(ls: seq<Label>, i: nat)
    requires i <= |ls| && !FirstAnswer(ls[..i]).Unset?
    ensures FirstAnswer(ls) == FirstAnswer(ls[..i])
  {
    if i == |ls| {
      assert ls[..i] == ls;
    } else {
      assert Front(ls)[..i] == ls[..i];
      FirstAnswerIsFinal(Front(ls), i);
    }
  }

  predicate FinishesJoin(s: State, l: Label) {
    s.caller.JoinWaiting? && l.CallerMoves?
  }

  /** Join returns or throws the first answer if there is one within 16 s, and otherwise
      throws TimeoutError, 16 s after it began to wait and not later. */
  lemma {:induction false} JoinAgreement(ls: seq<Label>)
    requires TimedRun(ls) && ls != [] && FinishesJoin(Exec(Front(ls)), Last(ls))
    ensures var since := Exec(Front(ls)).caller.since;
      && since <= Exec(ls).now <= since + 16.0
      && Exec(ls).caller == JoinFinished(
           match FirstAnswer(Front(ls))
           case Value(n) => Ok(n)
           case Failed(f) => Err(f)
           case Unset => Err(TimeoutFault))
      && (FirstAnswer(Front(ls)).Unset? ==>
            && Exec(ls).now == since + 16.0
            && forall i :: 0 <= i < |ls| ==> FirstAnswer(ls[..i]).Unset?)
  {
    var before := Front(ls);
    LastTimedMoves(ls);
    OnTimeRun(before);
    TimedIsRun(before);
    JoinedHoldsFirstAnswer(before);
    FinishingMove(Exec(before), Last(ls), Exec(ls));
    if FirstAnswer(before).Unset? {
      UnansweredSoFar(ls);
    }
  }

  lemma FinishingMove(s: State, l: Label, t: State)
    requires Moves(s, l, t) && FinishesJoin(s, l)
    ensures t.caller == JoinFinished(JoinResult(s.joined.cell)) && t.now == s.now
    ensures s.joined.cell.Unset? ==> s.now >= s.caller.since + 16.0
  {
  }

  lemma {:induction false} UnansweredSoFar(ls: seq<Label>)
    requires ls != [] && FirstAnswer(Front(ls)).Unset?
    ensures forall i :: 0 <= i < |ls| ==> FirstAnswer(ls[..i]).Unset?
  {
    forall i | 0 <= i < |ls| ensures FirstAnswer(ls[..i]).Unset? {
      assert Front(ls)[..i] == ls[..i];
      if !FirstAnswer(ls[..i]).Unset? {
        FirstAnswerIsFinal(Front(ls), i);
      }
    }
  }

  /** An answer that comes before the 16 s are over is not missed. */
  lemma {:induction false} EarlyAnswerIsNotMissed(ls: seq<Label>, i: nat)
    requires TimedRun(ls) && i <= |ls|
    requires Exec(ls[..i]).caller.JoinWaiting? && !FirstAnswer(ls[..i]).Unset?
    requires forall j :: i <= j < |ls| ==> !FinishesJoin(Exec(ls[..j]), ls[j])
    ensures Exec(ls).caller == Exec(ls[..i]).caller && Exec(ls).now == Exec(ls[..i]).now
  {
    if i == |ls| {
      assert ls[..i] == ls;
    } else {
      var before := Front(ls);
      assert before[..i] == ls[..i];
      forall j | i <= j < |before| ensures !FinishesJoin(Exec(before[..j]), before[j]) {
        assert before[..j] == ls[..j];
      }
      LastTimedMoves(ls);
      EarlyAnswerIsNotMissed(before, i);
      FirstAnswerIsFinal(before, i);
      TimedIsRun(before);
      JoinedHoldsFirstAnswer(before);
      assert ls[..|ls| - 1] == before;
    }
  }

  // ------------------------------------------------ an established session stays

  /** In a run with one Join, a joined_ that holds n pins the session. */
  predicate Pinned(s: State) {
    && (s.joined.cell.Value? ==> s.phase == Established && s.sessionId == s.joined.cell.value)
    && (s.phase == Established ==> !s.heartbeat.NotStarted?)
  }

  lemma PinnedReceive(s: State, l: Label)
    requires l.Receive? && !s.crashed && Pinned(s)
    ensures Pinned(OnMessage(s, l.fields, l.delivered).state)
  {
    ReceiveMoves(s, l);
    AnswerReceive(s, l);
    LifecycleMove(s, l, OnMessage(s, l.fields, l.delivered).state);
    if ConsumesWelcome(s, l) && s.heartbeat.NotStarted? {
      WelcomeAssigns(s, l);
    }
  }

  lemma WelcomeAssigns(s: State, l: Label)
    requires ConsumesWelcome(s, l) && s.heartbeat.NotStarted?
    ensures WelcomeId(l.fields).Ok? ==>
      OnMessage(s, l.fields, l.delivered).state.sessionId == WelcomeId(l.fields).value
  {
  }

  lemma PinnedStep(s: State, l: Label)
    requires Enabled(s, l) && Pinned(s) && !l.Join?
    ensures Pinned(Step(s, l))
  {
    StepMoves(s, l);
    if l.Receive? {
      PinnedReceive(s, l);
    } else if l.RunsTask? {
      AnswerTask(s, l);
    } else {
      OthersKeepJoined(s, l, Step(s, l));
    }
    LifecycleMove(s, l, Step(s, l));
  }

  lemma {:induction false} PinnedRun(ls: seq<Label>)
    requires Run(ls) && Tally(StartsJoin, ls) <= 1
    ensures Pinned(Exec(ls))
    ensures Tally(StartsJoin, ls) == 0 ==> Exec(ls).phase == Closed
  {
    if ls != [] {
      var before := Exec(Front(ls));
      PinnedRun(Front(ls));
      LastMoves(ls);
      if Last(ls).Join? {
        UnjoinedHasNoAnswer(Front(ls));
      } else {
        PinnedStep(before, Last(ls));
        LifecycleMove(before, Last(ls), Exec(ls));
      }
    }
  }

  lemma UnjoinedMove(s: State, l: Label)
    requires Enabled(s, l) && s.phase == Closed && !s.joined.cell.Value? && !l.Join?
    ensures Step(s, l).phase == Closed && !Step(s, l).joined.cell.Value?
  {
    AnswerStep(s, l);
    StepMoves(s, l);
    LifecycleMove(s, l, Step(s, l));
  }

  lemma {:induction false} UnjoinedHasNoAnswer(ls: seq<Label>)
    requires Run(ls) && Tally(StartsJoin, ls) == 0
    ensures Exec(ls).phase == Closed && !Exec(ls).joined.cell.Value?
  {
    if ls != [] {
      UnjoinedHasNoAnswer(Front(ls));
      UnjoinedMove(Exec(Front(ls)), Last(ls));
    }
  }

  /** After the one Join has returned n, the session is ESTABLISHED with id n for good. */
  lemma {:induction false} EstablishedForGood(ls: seq<Label>, i: nat, n: uint32)
    requires Run(ls) && Tally(StartsJoin, ls) <= 1 && i <= |ls|
    requires Exec(ls[..i]).caller == JoinFinished(Ok(n))
    ensures Exec(ls).phase == Established && Exec(ls).sessionId == n
  {
    RunPrefix(ls, i);
    JoinedHoldsFirstAnswer(ls[..i]);
    JoinedHoldsFirstAnswer(ls);
    ReturnedIsJoined(ls[..i], n);
    FirstAnswerIsFinal(ls, i);
    PinnedRun(ls);
  }

  lemma ReturnedMove(s: State, l: Label, t: State, n: uint32)
    requires Moves(s, l, t) && t.caller == JoinFinished(Ok(n))
    requires s.caller == JoinFinished(Ok(n)) ==> s.joined.cell == Value(n)
    ensures t.joined.cell == Value(n)
  {
  }

  lemma {:induction false} ReturnedIsJoined(ls: seq<Label>, n: uint32)
    requires Run(ls) && Exec(ls).caller == JoinFinished(Ok(n))
    ensures Exec(ls).joined.cell == Value(n)
  {
    LastMoves(ls);
    if Exec(Front(ls)).caller == JoinFinished(Ok(n)) {
      ReturnedIsJoined(Front(ls), n);
    }
    ReturnedMove(Exec(Front(ls)), Last(ls), Exec(ls), n);
  }
}
