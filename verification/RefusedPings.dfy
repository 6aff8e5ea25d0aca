/**
 What becomes of the process after the transport refuses a heartbeat PING. The lambda that
 sends it stores false in the pong promise and an error in leaved_; both writes can fail.
 */
module RefusedPings {
  import opened Faults
  import opened JsonValues
  import opened Promises
  import opened SessionModel
  import opened SessionMoves
  import opened SessionSafety
  import opened SessionTiming
  import opened Progress

  /** The three cases of a refused ping: over an empty promise it stores false and leaves
      leaved_ resolved; over a full one it changes nothing; and it ends the process at once
      unless both promises were still to be written. */
  lemma RefusalEffect(s: State, l: Label)
    requires Enabled(s, l) && RefusesPing(s, l)
    ensures s.pong.cell.Unset? ==>
      Step(s, l) == s.(queue := s.queue[1..], pong := s.pong.(cell := Value(false)), leaved := Step(s, l).leaved)
      && !Step(s, l).leaved.cell.Unset?
    ensures !s.pong.cell.Unset? ==> Step(s, l) == s.(queue := s.queue[1..])
    ensures EndsProcess(s, l) <==> !(s.pong.cell.Unset? && s.leaved.cell.Unset?)
  {
  }

  // ------------------------------------------------------------ no way around

  /** The controller runs towards a second write of leaved_. */
  predicate Doomed(s: State) {
    Beating(s) && s.pong.cell == Value(false) && !s.leaved.cell.Unset?
  }

  lemma DoomedMove(s: State, l: Label, t: State)
    requires Moves(s, l, t) && Prompt(s, l) && OnTime(s) && HeartbeatInv(s)
    requires Doomed(s) && !t.crashed
    ensures Doomed(t) && Deadline(t) <= Deadline(s)
  {
  }

  lemma {:induction false} StaysDoomed(ls: seq<Label>, i: nat)
    requires TimedRun(ls) && i <= |ls| && !Exec(ls).crashed && Doomed(Exec(ls[..i]))
    ensures Doomed(Exec(ls)) && Exec(ls).now <= Deadline(Exec(ls)) <= Deadline(Exec(ls[..i]))
    ensures HeartbeatInv(Exec(ls)) && OnTime(Exec(ls))
  {
    TimedIsRun(ls);
    HeartbeatInvRun(ls);
    OnTimeRun(ls);
    if i == |ls| {
      assert ls[..i] == ls;
    } else {
      var before := Front(ls);
      assert before[..i] == ls[..i];
      LastTimedMoves(ls);
      StaysDoomed(before, i);
      DoomedMove(Exec(before), Last(ls), Exec(ls));
    }
    DeadlineAhead(Exec(ls));
  }

  /** A ping refused over an empty promise, at index i of a timed run. */
  ghost predicate RefusedAt(ls: seq<Label>, i: nat) {
    && TimedRun(ls) && i < |ls|
    && RefusesPing(Exec(ls[..i]), ls[i]) && Beating(Exec(ls[..i])) && Exec(ls[..i]).pong.cell.Unset?
  }

  lemma {:induction false} RefusalDooms(ls: seq<Label>, i: nat)
    requires RefusedAt(ls, i)
    ensures Doomed(Exec(ls[..i + 1])) && Deadline(Exec(ls[..i + 1])) <= Exec(ls[..i]).now + 20.0
  {
    TimedIsRun(ls);
    TimedPrefix(ls, i);
    TimedIsRun(ls[..i]);
    OnTimeRun(ls[..i]);
    RunAt(ls, i);
    HeartbeatInvRun(ls[..i]);
    RefusalEffect(Exec(ls[..i]), ls[i]);
    DoomedDeadline(Exec(ls[..i]), Exec(ls[..i + 1]));
  }

  lemma DoomedDeadline(s: State, t: State)
    requires OnTime(s) && HeartbeatInv(s) && Beating(s) && s.pong.cell.Unset?
    requires t.heartbeat == s.heartbeat && t.now == s.now && t.pong.cell == Value(false)
    ensures Deadline(t) <= s.now + 20.0
  {
  }

  /** From then on the run has crashed, or is doomed and not yet past 20 s. */
  lemma {:induction false} RefusedPingBound(ls: seq<Label>, i: nat)
    requires RefusedAt(ls, i)
    ensures || Exec(ls).crashed
            || (Doomed(Exec(ls)) && Exec(ls).now <= Exec(ls[..i]).now + 20.0)
  {
    if !Exec(ls).crashed {
      RefusalDooms(ls, i);
      StaysDoomed(ls, i + 1);
    }
  }

  /** Every surviving run after such a ping has a timed continuation that crashes, and not
      later than 20 s after the ping. */
  lemma {:induction false} RefusedPingCrashes(ls: seq<Label>, i: nat) returns (more: seq<Label>)
    requires RefusedAt(ls, i) && !Exec(ls).crashed
    ensures ContinuesAlone(ls, more) && Exec(more).crashed
    ensures Exec(more).now <= Exec(ls[..i]).now + 20.0
  {
    forall next | ContinuesAlone(ls, next) && !Exec(next).crashed
      ensures Exec(next).now <= Exec(ls[..i]).now + 20.0
    {
      assert next[..i] == ls[..i] && next[i] == ls[i];
      RefusedPingBound(next, i);
    }
    more := BoundedRunCrashes(ls, Exec(ls[..i]).now + 20.0);
  }

  // ------------------------------------------------ whether the cycle can complete

  /** A continuation of the first i steps that survives and ends by completing a cycle. */
  ghost predicate CompletesAfter(ls: seq<Label>, more: seq<Label>) {
    && Continues(ls, more) && |more| > |ls|
    && CompletesCycle(Exec(Front(more)), Last(more)) && !Exec(more).crashed
  }

  /** A controller that will never again replace the promise. */
  predicate Stuck(s: State) {
    s.pong.cell == Value(false) || (s.heartbeat.TimedOut? && !s.pong.cell.Unset?)
  }

  lemma StuckMove(s: State, l: Label, t: State)
    requires Moves(s, l, t) && HeartbeatInv(s) && Stuck(s) && !t.crashed
    ensures Stuck(t) && !CompletesCycle(s, l)
  {
  }

  lemma {:induction false} StaysStuck(ls: seq<Label>, more: seq<Label>)
    requires TimedRun(more) && ls <= more && Stuck(Exec(ls)) && !Exec(more).crashed
    ensures Stuck(Exec(more)) && !CompletesAfter(ls, more)
  {
    if |more| == |ls| {
      assert more == ls;
    } else {
      var before := Front(more);
      assert ls <= before;
      LastTimedMoves(more);
      TimedIsRun(before);
      HeartbeatInvRun(before);
      StaysStuck(ls, before);
      StuckMove(Exec(before), Last(more), Exec(more));
    }
  }

  /** The controller has a true to find and has not reset its promise. */
  predicate Fulfilled(s: State) {
    !s.crashed && Beating(s) && HeartbeatInv(s) && OnTime(s) && s.pong.cell == Value(true) && !s.heartbeat.TimedOut?
  }

  /** When the reset is due. */
  function ResetBy(s: State): real {
    if s.heartbeat.Sleeping? then s.heartbeat.since + 20.0 else s.now
  }

  lemma FulfilledMove(s: State, l: Label, t: State)
    requires Moves(s, l, t) && Prompt(s, l) && Fulfilled(s) && ClientsOwn(l) && !s.heartbeat.Resetting?
    ensures Fulfilled(t) && ResetBy(t) <= ResetBy(s)
  {
  }

  lemma {:induction false} CycleCompletes(ls: seq<Label>, t: real) returns (more: seq<Label>)
    requires TimedRun(ls) && Fulfilled(Exec(ls)) && ResetBy(Exec(ls)) < t
    ensures CompletesAfter(ls, more)
    decreases BeatRank(Exec(ls)), CallerRank(Exec(ls).caller), |Exec(ls).queue|,
              One(Exec(ls).listener.Listening?), One(!Ready(Exec(ls)))
  {
    if Exec(ls).heartbeat.Resetting? {
      more := Take(ls, Beats);
      assert Front(more) == ls;
    } else {
      more := GoesOn(ls, t);
      assert Front(more) == ls;
      LastTimedMoves(more);
      FulfilledMove(Exec(ls), Last(more), Exec(more));
      more := CycleCompletes(more, t);
    }
  }

  /** Exactly when the controller gets over a refused ping: some timed continuation completes
      the cycle if and only if the promise already held true and the wait had not timed out. */
  lemma {:induction false} RefusedPingSurvived(ls: seq<Label>)
    requires TimedRun(ls) && ls != []
    requires RefusesPing(Exec(Front(ls)), Last(ls)) && Beating(Exec(Front(ls)))
    ensures (exists more :: CompletesAfter(ls, more))
       <==> Exec(Front(ls)).pong.cell == Value(true) && !Exec(Front(ls)).heartbeat.TimedOut?
  {
    var s := Exec(Front(ls));
    LastTimedMoves(ls);
    RefusalEffect(s, Last(ls));
    TimedIsRun(ls);
    HeartbeatInvRun(ls);
    HeartbeatInvRun(Front(ls));
    if s.pong.cell == Value(true) && !s.heartbeat.TimedOut? {
      OnTimeRun(ls);
      var more := CycleCompletes(ls, ResetBy(Exec(ls)) + 1.0);
    } else {
      FullOrEmpty(s);
      forall more ensures !CompletesAfter(ls, more) {
        if CompletesAfter(ls, more) {
          StaysStuck(ls, more);
        }
      }
    }
  }

  lemma FullOrEmpty(s: State)
    requires HeartbeatInv(s)
    ensures s.pong.cell.Unset? || s.pong.cell == Value(true) || s.pong.cell == Value(false)
  {
    match s.pong.cell
    case Value(alive) => if alive {} else {}
    case _ =>
  }
}
