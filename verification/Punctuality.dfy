/**
 How early the heartbeat may act: the sleep lasts 20 s and the wait 4 s, so PINGs keep their
 distance and a peer that answers in time is never declared dead.
 */
module Punctuality {
  import opened Faults
  import opened JsonValues
  import opened Promises
  import opened SessionModel
  import opened SessionMoves
  import opened SessionSafety
  import opened SessionTiming

  // --------------------------------------------------------- distance of PINGs

  /** A sleep begins after this step and before any ping: the heartbeat starts, or has just
      dispatched one. */
  predicate BeginsPeriod(s: State, l: Label) {
    DispatchesPing(s, l) || (ConsumesWelcome(s, l) && s.heartbeat.NotStarted?)
  }

  /** The period began at `from`, and no ping is due within 20 s of it. */
  predicate PeriodSince(s: State, from: real) {
    && s.now >= from
    && (s.heartbeat.Sleeping? ==> s.heartbeat.since >= from)
    && (s.heartbeat.Dispatching? ==> s.now >= from + 20.0)
    && !s.heartbeat.NotStarted?
  }

  lemma PeriodBegins(s: State, l: Label, t: State)
    requires Moves(s, l, t) && BeginsPeriod(s, l)
    ensures PeriodSince(t, s.now)
  {
  }

  lemma PeriodMove(s: State, l: Label, t: State, from: real)
    requires Moves(s, l, t) && PeriodSince(s, from)
    ensures PeriodSince(t, from)
  {
  }

  lemma {:induction false} PeriodRun(ls: seq<Label>, i: nat)
    requires Run(ls) && i < |ls| && BeginsPeriod(Exec(ls[..i]), ls[i])
    ensures PeriodSince(Exec(ls), Exec(ls[..i]).now)
  {
    LastMoves(ls);
    if i == |ls| - 1 {
      assert ls[..i] == Front(ls);
      PeriodBegins(Exec(ls[..i]), ls[i], Exec(ls));
    } else {
      assert Front(ls)[..i] == ls[..i];
      PeriodRun(Front(ls), i);
      PeriodMove(Exec(Front(ls)), Last(ls), Exec(ls), Exec(ls[..i]).now);
    }
  }

  /** In every run two PINGs are dispatched at least 20 s apart, and the first one at least
      20 s after the WELCOME that started the heartbeat. */
  lemma {:induction false} PingsKeepDistance(ls: seq<Label>, i: nat, j: nat)
    requires Run(ls) && i < j < |ls|
    requires BeginsPeriod(Exec(ls[..i]), ls[i]) && DispatchesPing(Exec(ls[..j]), ls[j])
    ensures Exec(ls[..j]).now >= Exec(ls[..i]).now + 20.0
  {
    RunPrefix(ls, j);
    assert ls[..j][..i] == ls[..i];
    PeriodRun(ls[..j], i);
  }

  /** Where the controller can be how long after it dispatched a ping, before the next. */
  predicate CycleSince(s: State, from: real) {
    match s.heartbeat
    case TakingFuture => s.now == from
    case Waiting(since) => since == from
    case TimedOut => s.now <= from + 4.0
    case Getting => s.now <= from + 4.0
    case Resetting => s.now <= from + 4.0
    case Sleeping(since) => since <= from + 4.0
    case Dispatching => s.now <= from + 24.0
    case _ => true
  }

  lemma CycleMove(s: State, l: Label, t: State, from: real)
    requires Moves(s, l, t) && Prompt(s, l) && OnTime(s) && !t.crashed && CycleSince(s, from)
    requires !s.heartbeat.NotStarted? && !s.heartbeat.Expired? && !s.heartbeat.Stopped?
    requires !DispatchesPing(s, l)
    ensures CycleSince(t, from)
  {
  }

  lemma {:induction false} CycleRun(ls: seq<Label>, i: nat)
    requires TimedRun(ls) && i < |ls| && DispatchesPing(Exec(ls[..i]), ls[i]) && !Exec(ls).crashed
    requires forall k :: i < k < |ls| ==> !DispatchesPing(Exec(ls[..k]), ls[k])
    ensures CycleSince(Exec(ls), Exec(ls[..i]).now)
  {
    LastTimedMoves(ls);
    if i == |ls| - 1 {
      assert ls[..i] == Front(ls);
    } else {
      var before := Front(ls);
      assert before[..i] == ls[..i] && ls[..|ls| - 1] == before;
      forall k | i < k < |before| ensures !DispatchesPing(Exec(before[..k]), before[k]) {
        assert before[..k] == ls[..k];
      }
      CycleRun(before, i);
      OnTimeRun(before);
      if Beating(Exec(before)) {
        CycleMove(Exec(before), Last(ls), Exec(ls), Exec(ls[..i]).now);
      } else {
        PeriodStarted(before, i);
        RestingMove(Exec(before), Last(ls), Exec(ls));
      }
    }
  }

  lemma {:induction false} PeriodStarted(ls: seq<Label>, i: nat)
    requires TimedRun(ls) && i < |ls| && DispatchesPing(Exec(ls[..i]), ls[i])
    ensures !Exec(ls).heartbeat.NotStarted?
  {
    TimedIsRun(ls);
    PeriodRun(ls, i);
  }

  lemma RestingMove(s: State, l: Label, t: State)
    requires Moves(s, l, t) && (s.heartbeat.Expired? || s.heartbeat.Stopped?)
    ensures t.heartbeat == s.heartbeat
  {
  }

  /** In a timed run the next PING follows 20 to 24 s after the last. */
  lemma {:induction false} NextPing(ls: seq<Label>, i: nat, j: nat)
    requires TimedRun(ls) && i < j < |ls|
    requires DispatchesPing(Exec(ls[..i]), ls[i]) && DispatchesPing(Exec(ls[..j]), ls[j])
    requires forall k :: i < k < j ==> !DispatchesPing(Exec(ls[..k]), ls[k])
    ensures Exec(ls[..i]).now + 20.0 <= Exec(ls[..j]).now <= Exec(ls[..i]).now + 24.0
  {
    TimedIsRun(ls);
    PingsKeepDistance(ls, i, j);
    TimedPrefix(ls, j);
    RunAt(ls, j);
    var cycle := ls[..j];
    assert cycle[..i] == ls[..i];
    forall k | i < k < |cycle| ensures !DispatchesPing(Exec(cycle[..k]), cycle[k]) {
      assert cycle[..k] == ls[..k];
    }
    CycleRun(cycle, i);
  }

  // ------------------------------------------------------------ the 4 s wait

  /** The wait times out 4 s after it began and not earlier. */
  lemma {:induction false} WaitLasts(ls: seq<Label>)
    requires Run(ls) && ls != [] && Last(ls) == Beats
    requires Exec(Front(ls)).heartbeat.Waiting? && Exec(Front(ls)).pong.cell.Unset?
    ensures Exec(ls).heartbeat.TimedOut?
    ensures Exec(ls).now >= Exec(Front(ls)).heartbeat.since + 4.0
  {
  }

  /** A message of type PONG, number 5. */
  predicate IsPongMessage(l: Label) {
    l.Receive? && l.fields != [] && GetInt32(l.fields[0]) == Ok(5)
  }

  lemma PongFills(s: State, l: Label)
    requires Enabled(s, l) && IsPongMessage(l)
    ensures !Step(s, l).pong.cell.Unset?
  {
  }

  lemma {:induction false} UnfilledLast(ls: seq<Label>)
    requires Run(ls) && ls != [] && Exec(ls).pong.cell.Unset?
    ensures !IsPongMessage(Last(ls))
  {
    if IsPongMessage(Last(ls)) {
      PongFills(Exec(Front(ls)), Last(ls));
    }
  }

  predicate AwaitsPong(h: Heartbeat) {
    h.TakingFuture? || h.Waiting?
  }

  lemma AwaitMove(s: State, l: Label, t: State)
    requires Moves(s, l, t) && Prompt(s, l) && !t.crashed && AwaitsPong(t.heartbeat)
    ensures DispatchesPing(s, l) || AwaitsPong(s.heartbeat)
    ensures DispatchesPing(s, l) ==> t.heartbeat.TakingFuture? && t.now == s.now
    ensures !DispatchesPing(s, l) ==> WaitStart(t) == WaitStart(s)
    ensures t.pong.cell.Unset? ==> s.pong.cell.Unset?
  {
  }

  /** When the wait began or will begin. */
  function WaitStart(s: State): real {
    if s.heartbeat.Waiting? then s.heartbeat.since else s.now
  }

  predicate NoPongAfter(ls: seq<Label>, j: nat) {
    forall k :: j < k < |ls| ==> !IsPongMessage(ls[k])
  }

  lemma {:induction false} NoPongLast(ls: seq<Label>, j: nat)
    requires ls != [] && NoPongAfter(Front(ls), j) && !IsPongMessage(Last(ls))
    ensures NoPongAfter(ls, j)
  {
    forall k | j < k < |ls| ensures !IsPongMessage(ls[k]) {
      assert k < |ls| - 1 ==> Front(ls)[k] == ls[k];
    }
  }

  /** A controller that waits began to at the time of its ping, and as long as the promise is
      empty no PONG has come since. */
  lemma {:induction false} WaitingSince(ls: seq<Label>) returns (j: nat)
    requires TimedRun(ls) && !Exec(ls).crashed && AwaitsPong(Exec(ls).heartbeat)
    ensures j < |ls| && DispatchesPing(Exec(ls[..j]), ls[j])
    ensures Exec(ls[..j]).now == WaitStart(Exec(ls))
    ensures Exec(ls).pong.cell.Unset? ==> NoPongAfter(ls, j)
  {
    var before := Front(ls);
    LastTimedMoves(ls);
    AwaitMove(Exec(before), Last(ls), Exec(ls));
    if DispatchesPing(Exec(before), Last(ls)) {
      j := |ls| - 1;
      assert ls[..j] == before;
    } else {
      j := WaitingSince(before);
      assert before[..j] == ls[..j];
      TimedIsRun(ls);
      if Exec(ls).pong.cell.Unset? {
        UnfilledLast(ls);
        NoPongLast(ls, j);
      }
    }
  }

  // ------------------------------------------------------------ a punctual peer

  /** A PONG at index k answers the PING at index j in less than 4 s. */
  predicate AnswerAt(ls: seq<Label>, j: nat, k: int) {
    j < k < |ls| && IsPongMessage(ls[k]) && Exec(ls[..k]).now < Exec(ls[..j]).now + 4.0
  }

  /** The PING at index j is answered less than 4 s later, or the run is not that long. */
  ghost predicate AnsweredInTime(ls: seq<Label>, j: nat)
    requires j < |ls|
  {
    Exec(ls).now >= Exec(ls[..j]).now + 4.0 ==> exists k :: AnswerAt(ls, j, k)
  }

  /** Every PING is taken by the transport and answered in time. */
  ghost predicate PunctualPeer(ls: seq<Label>) {
    && (forall j :: 0 <= j < |ls| && DispatchesPing(Exec(ls[..j]), ls[j]) ==> AnsweredInTime(ls, j))
    && (forall j :: 0 <= j < |ls| ==> !RefusesPing(Exec(ls[..j]), ls[j]))
  }

  lemma {:induction false} PunctualSoFar(ls: seq<Label>)
    requires TimedRun(ls) && ls != [] && PunctualPeer(ls)
    ensures PunctualPeer(Front(ls))
  {
    var before := Front(ls);
    LastTimedMoves(ls);
    forall j | 0 <= j < |before| && DispatchesPing(Exec(before[..j]), before[j])
      ensures AnsweredInTime(before, j)
    {
      assert before[..j] == ls[..j];
      AnsweredSoFar(ls, j);
    }
    forall j | 0 <= j < |before| ensures !RefusesPing(Exec(before[..j]), before[j]) {
      assert before[..j] == ls[..j];
    }
  }

  lemma {:induction false} PastState(ls: seq<Label>, j: nat)
    requires j < |ls| - 1
    ensures Exec(Front(ls)[..j]) == Exec(ls[..j]) && Front(ls)[j] == ls[j]
  {
    assert Front(ls)[..j] == ls[..j];
  }

  lemma {:induction false} LastClock(ls: seq<Label>)
    requires TimedRun(ls) && ls != []
    ensures Exec(Front(ls)).now == Exec(ls[..|ls| - 1]).now <= Exec(ls).now
  {
    LastTimedMoves(ls);
  }

  lemma {:induction false} AnsweredBefore(ls: seq<Label>, j: nat, k: nat)
    requires TimedRun(ls) && j < |ls| - 1 && AnswerAt(ls, j, k)
    requires Exec(Front(ls)).now >= Exec(ls[..j]).now + 4.0
    ensures AnswerAt(Front(ls), j, k)
  {
    LastClock(ls);
    PastState(ls, j);
    if k == |ls| - 1 {
      assert false;
    } else {
      PastState(ls, k);
    }
  }

  lemma {:induction false} AnsweredSoFar(ls: seq<Label>, j: nat)
    requires TimedRun(ls) && j < |ls| - 1 && AnsweredInTime(ls, j)
    ensures AnsweredInTime(Front(ls), j)
  {
    LastClock(ls);
    PastState(ls, j);
    if Exec(Front(ls)).now >= Exec(ls[..j]).now + 4.0 {
      var k :| AnswerAt(ls, j, k);
      AnsweredBefore(ls, j, k);
    }
  }

  /** Nothing the heartbeat does or stores says that the peer is dead. */
  predicate PeerAlive(s: State) {
    && s.pong.cell != Value(false)
    && !s.heartbeat.TimedOut? && !s.heartbeat.Failing? && !s.heartbeat.Expired?
    && s.leaved.cell != Failed(TimeoutFault)
  }

  lemma AliveMove(s: State, l: Label, t: State)
    requires Moves(s, l, t) && HeartbeatInv(s) && PeerAlive(s) && t.leaved.cell != Failed(TimeoutFault)
    requires t.pong.cell != Value(false)
    requires l.Beats? && s.heartbeat.Waiting? ==> !s.pong.cell.Unset?
    ensures PeerAlive(t) && (l.Beats? ==> !t.crashed)
  {
  }

  lemma {:induction false} NoRefusalStoresFalse(s: State, l: Label)
    requires Enabled(s, l) && PeerAlive(s) && HeartbeatInv(s) && !RefusesPing(s, l)
    ensures Step(s, l).pong.cell != Value(false) && Step(s, l).leaved.cell != Failed(TimeoutFault)
  {
    OfferStep(s, l);
    if l.RunsTask? {
      PingAccepted(s, l);
    } else {
      StepMoves(s, l);
    }
  }

  lemma PingAccepted(s: State, l: Label)
    requires Enabled(s, l) && l.RunsTask? && !RefusesPing(s, l)
    ensures Step(s, l).pong == s.pong
  {
  }

  /** The wait of a punctual peer's PING never times out. */
  lemma {:induction false} WaitIsAnswered(ls: seq<Label>)
    requires TimedRun(ls) && PunctualPeer(ls) && !Exec(ls).crashed && BeatReady(Exec(ls))
    requires Exec(ls).heartbeat.Waiting?
    ensures !Exec(ls).pong.cell.Unset?
  {
    var j := WaitingSince(ls);
    if Exec(ls).now >= Exec(ls[..j]).now + 4.0 {
      var k :| AnswerAt(ls, j, k);
      assert !NoPongAfter(ls, j);
    }
  }

  /** In a timed run whose peer answers every PING in less than 4 s, the controller never
      reports TimeoutError, never stores false and never ends the process. */
  lemma {:induction false} LivePeerIsNeverDeclaredDead(ls: seq<Label>)
    requires TimedRun(ls) && PunctualPeer(ls)
    ensures PeerAlive(Exec(ls))
    ensures ls != [] && Last(ls) == Beats ==> !Exec(ls).crashed
  {
    if ls != [] {
      var before := Front(ls);
      LastTimedMoves(ls);
      PunctualSoFar(ls);
      LivePeerIsNeverDeclaredDead(before);
      TimedIsRun(before);
      HeartbeatInvRun(before);
      assert ls[..|ls| - 1] == before;
      NoRefusalStoresFalse(Exec(before), Last(ls));
      if Last(ls) == Beats && Exec(before).heartbeat.Waiting? {
        WaitIsAnswered(before);
      }
      AliveMove(Exec(before), Last(ls), Exec(ls));
    }
  }
}
