/**
 Timed runs can always go on: a scheduler under which the client's own threads move while
 the peer is silent and nobody calls. What must happen in time then does happen.
 */
module Progress {
  import opened Faults
  import opened JsonValues
  import opened Promises
  import opened SessionModel
  import opened SessionMoves
  import opened SessionSafety
  import opened SessionTiming

  /** A timed continuation. */
  ghost predicate Continues(ls: seq<Label>, more: seq<Label>) {
    TimedRun(more) && ls <= more
  }

  /** A step no peer, no application and no failing send has a part in. */
  predicate ClientsOwn(l: Label) {
    l.Beats? || l.CallerMoves? || l.ListenReturns? || l.Tick? || (l.RunsTask? && l.delivered)
  }

  /** A timed continuation in which nobody but the client does anything. */
  ghost predicate ContinuesAlone(ls: seq<Label>, more: seq<Label>) {
    Continues(ls, more) && forall j :: |ls| <= j < |more| ==> ClientsOwn(more[j])
  }

  lemma {:induction false} Take(ls: seq<Label>, l: Label) returns (more: seq<Label>)
    requires TimedRun(ls) && Enabled(Exec(ls), l) && Prompt(Exec(ls), l)
    ensures more == ls + [l] && Continues(ls, more)
    ensures Exec(more) == Step(Exec(ls), l) && Moves(Exec(ls), l, Exec(more))
  {
    more := ls + [l];
    TimedIsRun(ls);
    Extend(ls, l);
    StepMoves(Exec(ls), l);
  }

  // ------------------------------------------------------------- the scheduler

  predicate ListenerReady(s: State) {
    s.listener.Listening? && !s.leaved.cell.Unset?
  }

  /** Some thread can move without the clock. */
  predicate Ready(s: State) {
    s.queue != [] || CallerReady(s) || ListenerReady(s) || BeatReady(s)
  }

  function Earlier(a: real, b: real): real {
    if a < b then a else b
  }

  /** The next timeout of the heartbeat or of Join, but not after t. */
  function NextTimeout(s: State, t: real): real {
    var beat := match s.heartbeat
      case Sleeping(since) => Earlier(t, since + 20.0)
      case Waiting(since) => Earlier(t, since + 4.0)
      case _ => t;
    if s.caller.JoinWaiting? then Earlier(beat, s.caller.since + 16.0) else beat
  }

  /** What moves next on the way to time t. */
  function Next(s: State, t: real): Label {
    if s.queue != [] then RunsTask(true)
    else if CallerReady(s) then CallerMoves
    else if ListenerReady(s) then ListenReturns
    else if BeatReady(s) then Beats
    else Tick(NextTimeout(s, t) - s.now)
  }

  /** Beats still to come, a held PONG being good for one more cycle. */
  function BeatRank(s: State): nat {
    var points := match s.heartbeat
      case Sleeping(_) => 8
      case Dispatching => 7
      case TakingFuture => 6
      case Waiting(_) => 5
      case TimedOut => 4
      case Getting => 3
      case Resetting => 2
      case Failing => 2
      case _ => 0;
    points + if s.pong.cell == Value(true) then 8 else 0
  }

  function CallerRank(c: Caller): nat {
    match c
    case JoinDispatching(_) => 3
    case JoinTakingFuture => 2
    case JoinWaiting(_) => 1
    case _ => 0
  }

  /** Fewer steps are left before the scheduler comes to rest. */
  predicate Sooner(t: State, s: State) {
    || BeatRank(t) < BeatRank(s)
    || (BeatRank(t) == BeatRank(s)
        && (|| CallerRank(t.caller) < CallerRank(s.caller)
            || (CallerRank(t.caller) == CallerRank(s.caller)
                && (|| |t.queue| < |s.queue|
                    || (|t.queue| == |s.queue|
                        && (|| One(t.listener.Listening?) < One(s.listener.Listening?)
                            || (One(t.listener.Listening?) == One(s.listener.Listening?)
                                && One(!Ready(t)) < One(!Ready(s)))))))))
  }

  lemma ThreadMoves(s: State, l: Label, t: State)
    requires Moves(s, l, t) && HeartbeatInv(s) && !t.crashed && !l.Tick? && ClientsOwn(l)
    ensures Sooner(t, s) && t.now == s.now
  {
  }

  lemma ClockMoves(s: State, t: real)
    requires !s.crashed && !Ready(s) && HeartbeatInv(s) && OnTime(s) && s.now < t
    ensures s.now < NextTimeout(s, t) <= t
    ensures Prompt(s, Tick(NextTimeout(s, t) - s.now))
    ensures var after := s.(now := NextTimeout(s, t));
      after.now == t || (Ready(after) && Sooner(after, s))
  {
  }

  lemma NextMoves(s: State, t: real)
    requires !s.crashed && HeartbeatInv(s) && OnTime(s) && s.now < t
    ensures var l := Next(s, t);
      && Enabled(s, l) && Prompt(s, l) && ClientsOwn(l) && Step(s, l).now <= t
      && (Step(s, l).crashed || Step(s, l).now == t || Sooner(Step(s, l), s))
  {
    if Ready(s) {
      StepMoves(s, Next(s, t));
      if !Step(s, Next(s, t)).crashed {
        ThreadMoves(s, Next(s, t), Step(s, Next(s, t)));
      } else {
        CrashKeepsTime(s, Next(s, t), Step(s, Next(s, t)));
      }
    } else {
      ClockMoves(s, t);
    }
  }

  lemma CrashKeepsTime(s: State, l: Label, t: State)
    requires Moves(s, l, t) && t.crashed
    ensures t.now == s.now
  {
  }

  /** One scheduled step of a run. */
  lemma {:induction false} GoesOn(ls: seq<Label>, t: real) returns (more: seq<Label>)
    requires TimedRun(ls) && !Exec(ls).crashed && Exec(ls).now < t
    ensures more == ls + [Next(Exec(ls), t)] && ContinuesAlone(ls, more)
    ensures Exec(more) == Step(Exec(ls), Next(Exec(ls), t)) && Exec(more).now <= t
    ensures Moves(Exec(ls), Next(Exec(ls), t), Exec(more))
    ensures Exec(more).crashed || Exec(more).now == t || Sooner(Exec(more), Exec(ls))
  {
    TimedIsRun(ls);
    HeartbeatInvRun(ls);
    OnTimeRun(ls);
    NextMoves(Exec(ls), t);
    more := Take(ls, Next(Exec(ls), t));
  }

  /** Every surviving timed run goes on, with the client alone, until any later time or until
      the process crashes. */
  lemma {:induction false} TimeGoesOn(ls: seq<Label>, t: real) returns (more: seq<Label>)
    requires TimedRun(ls) && !Exec(ls).crashed && Exec(ls).now <= t
    ensures ContinuesAlone(ls, more)
    ensures Exec(more).crashed || Exec(more).now == t
    ensures Exec(more).now <= t
    decreases BeatRank(Exec(ls)), CallerRank(Exec(ls).caller), |Exec(ls).queue|,
              One(Exec(ls).listener.Listening?), One(!Ready(Exec(ls)))
  {
    more := ls;
    if Exec(ls).now < t {
      more := GoesOn(ls, t);
      if !Exec(more).crashed && Exec(more).now < t {
        more := TimeGoesOn(more, t);
      }
    }
  }

  // --------------------------------------------------- what then does happen

  lemma {:induction false} AloneNoPong(ls: seq<Label>, more: seq<Label>, i: nat)
    requires ContinuesAlone(ls, more) && i <= |ls|
    requires forall j :: i <= j < |ls| ==> !AcceptsPong(Exec(ls[..j]), ls[j])
    ensures forall j :: i <= j < |more| ==> !AcceptsPong(Exec(more[..j]), more[j])
  {
    forall j | i <= j < |more| ensures !AcceptsPong(Exec(more[..j]), more[j]) {
      if j < |ls| {
        assert more[..j] == ls[..j];
      } else {
        assert ClientsOwn(more[j]);
      }
    }
  }

  /** If the peer falls silent the end comes: under a running heartbeat every surviving timed
      run goes on to a crash or to a resolved leaved_ and a Listen that has returned. */
  lemma {:induction false} SilenceIsNoticed(ls: seq<Label>, d: real) returns (more: seq<Label>)
    requires TimedRun(ls) && !Exec(ls).crashed && Beating(Exec(ls)) && d > 0.0
    ensures ContinuesAlone(ls, more) && Exec(more).now <= Exec(ls).now + 44.0 + d
    ensures || Exec(more).crashed
            || (!Exec(more).leaved.cell.Unset?
                && (Exec(ls).leaved.retrieved ==> !Exec(more).listener.Listening?))
  {
    more := TimeGoesOn(ls, Exec(ls).now + 44.0 + d);
    if !Exec(more).crashed {
      assert more[..|ls|] == ls;
      AloneNoPong(ls, more, |ls|);
      DeadPeerBound(more, |ls|);
      if Exec(ls).leaved.retrieved {
        ListenEndsAfterSilence(more, |ls|);
      }
    }
  }

  /** Where no surviving continuation outlives a bound, one crashes within it. */
  lemma {:induction false} BoundedRunCrashes(ls: seq<Label>, bound: real) returns (more: seq<Label>)
    requires TimedRun(ls) && !Exec(ls).crashed
    requires forall next :: ContinuesAlone(ls, next) && !Exec(next).crashed ==> Exec(next).now <= bound
    ensures ContinuesAlone(ls, more) && Exec(more).crashed && Exec(more).now <= bound
  {
    assert ContinuesAlone(ls, ls);
    more := TimeGoesOn(ls, bound + 1.0);
    assert Exec(more).crashed && |more| > |ls| by {
      assert |more| == |ls| ==> more == ls;
    }
    var before := Front(more);
    LastTimedMoves(more);
    CrashKeepsTime(Exec(before), Last(more), Exec(more));
    assert ContinuesAlone(ls, before);
  }

  // ------------------------------------- leaved_ resolved under a running heartbeat

  lemma ResolvedMove(s: State, l: Label, t: State)
    requires Moves(s, l, t) && Prompt(s, l) && OnTime(s) && HeartbeatInv(s)
    requires Beating(s) && !AcceptsPong(s, l) && !t.crashed && !s.leaved.cell.Unset?
    ensures Beating(t) && Deadline(t) <= Deadline(s) && !t.leaved.cell.Unset?
  {
  }

  /** leaved_ is resolved after the first i steps, the heartbeat runs and accepts no more. */
  ghost predicate LeftBeating(ls: seq<Label>, i: nat) {
    && TimedRun(ls) && i <= |ls|
    && Beating(Exec(ls[..i])) && !Exec(ls[..i]).leaved.cell.Unset?
    && forall j :: i <= j < |ls| ==> !AcceptsPong(Exec(ls[..j]), ls[j])
  }

  lemma {:induction false} ResolvedRun(ls: seq<Label>, i: nat)
    requires LeftBeating(ls, i) && !Exec(ls).crashed
    ensures Beating(Exec(ls)) && Deadline(Exec(ls)) <= Deadline(Exec(ls[..i]))
    ensures !Exec(ls).leaved.cell.Unset? && HeartbeatInv(Exec(ls)) && OnTime(Exec(ls))
  {
    TimedIsRun(ls);
    HeartbeatInvRun(ls);
    OnTimeRun(ls);
    if i == |ls| {
      assert ls[..i] == ls;
    } else {
      var before := Front(ls);
      assert before[..i] == ls[..i] && ls[..|ls| - 1] == before;
      LastTimedMoves(ls);
      forall j | i <= j < |before| ensures !AcceptsPong(Exec(before[..j]), before[j]) {
        assert before[..j] == ls[..j];
      }
      ResolvedRun(before, i);
      ResolvedMove(Exec(before), Last(ls), Exec(ls));
    }
  }

  /** Leave, or an empty message, resolves leaved_ and does not stop the heartbeat: without a
      further PONG nobody survives the next 44 s. */
  lemma {:induction false} LeavingStartsTheClock(ls: seq<Label>, i: nat)
    requires LeftBeating(ls, i) && !Exec(ls).crashed
    ensures Exec(ls).now <= Exec(ls[..i]).now + 44.0
  {
    ResolvedRun(ls, i);
    DeadlineAhead(Exec(ls));
    TimedIsRun(ls);
    CrashIsFinal(ls, i);
    TimedPrefix(ls, i);
    OnTimeRun(ls[..i]);
    TimedIsRun(ls[..i]);
    HeartbeatInvRun(ls[..i]);
    DeadlineAhead(Exec(ls[..i]));
  }

  /** And the crash does come. */
  lemma {:induction false} LeavingCrashes(ls: seq<Label>, i: nat) returns (more: seq<Label>)
    requires LeftBeating(ls, i) && !Exec(ls).crashed
    ensures ContinuesAlone(ls, more) && Exec(more).crashed && Exec(more).now <= Exec(ls[..i]).now + 44.0
  {
    forall next | ContinuesAlone(ls, next) && !Exec(next).crashed
      ensures Exec(next).now <= Exec(ls[..i]).now + 44.0
    {
      assert next[..i] == ls[..i];
      AloneNoPong(ls, next, i);
      LeavingStartsTheClock(next, i);
    }
    more := BoundedRunCrashes(ls, Exec(ls[..i]).now + 44.0);
  }
}
