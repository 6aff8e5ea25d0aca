/** Concrete runs into the failures the theorems describe: each is reached from the start. */
module FailureWitnesses {
  import opened Faults
  import opened JsonValues
  import opened Promises
  import opened SessionModel
  import opened SessionMoves
  import opened SessionSafety
  import opened ProcessEnd
  import opened SessionTiming
  import opened RefusedPings
  import opened Progress
  import opened SessionWitnesses

  /** The run's last step ends the process. */
  ghost predicate EndsWith(ls: seq<Label>) {
    && Run(ls) && ls != []
    && EndsProcess(Exec(Front(ls)), Last(ls))
  }

  lemma {:induction false} Finish(ls: seq<Label>, l: Label) returns (more: seq<Label>)
    requires Run(ls) && Enabled(Exec(ls), l) && EndsProcess(Exec(ls), l)
    ensures more == ls + [l] && EndsWith(more)
    ensures Front(more) == ls && Last(more) == l && Exec(more) == Do(Exec(ls), l).state
    ensures TimedRun(ls) && Prompt(Exec(ls), l) ==> TimedRun(more)
  {
    Extend(ls, l);
    more := ls + [l];
    assert Front(more) == ls && Last(more) == l;
  }

  /** A HELLO, which only clients send, is rejected on the client thread. */
  lemma RejectedHello() returns (ls: seq<Label>)
    ensures EndsWith(ls) && Rejects(Exec(Front(ls)), Last(ls)) && |ls| == 2 && Exec(Front(ls)).link.Connected()
  {
    Extend([], Attach(Attached(true, false, true)));
    ls := Finish([Attach(Attached(true, false, true))], Receive([JInt(HELLO)], true));
  }

  /** Leave on a session that was never attached. */
  lemma LeaveWithoutTransport() returns (ls: seq<Label>)
    ensures EndsWith(ls) && LeavesNoTransport(Exec(Front(ls)), Last(ls)) && |ls| == 1
  {
    ls := Finish([], Leaves(false, true));
  }

  /** Leave on the client thread of a connected session, as a signal handler on the io context
      calls it: the thread would have to join itself. */
  lemma {:induction false} LeaveOnClientThread() returns (ls: seq<Label>)
    ensures EndsWith(ls) && TimedRun(ls) && CannotStop(Exec(Front(ls)), Last(ls)) && Exec(ls).crashed
    ensures Last(ls) == Leaves(true, true)
  {
    ls := Joined();
    ls := Finish(ls, Leaves(true, true));
  }

  /** Leave on another thread: the heartbeat runs on, and without a PONG into its crash. */
  lemma {:induction false} LeaveThenSilence() returns (ls: seq<Label>, i: nat)
    ensures TimedRun(ls) && i < |ls| && ls[i] == Leaves(false, true) && LeftBeating(ls[..i + 1], i + 1)
    ensures ContinuesAlone(ls[..i + 1], ls) && Exec(ls).crashed && Exec(ls).now <= 44.0
  {
    var joined := Joined();
    i := |joined|;
    Extend(joined, Leaves(false, true));
    var left := joined + [Leaves(false, true)];
    assert left[..i + 1] == left;
    ls := LeavingCrashes(left, i + 1);
    assert ls[..i + 1] == left && ls[i] == left[i];
  }

  /** A second Leave, on the client thread, after one that could not finish. */
  lemma {:induction false} LeaveAgain() returns (ls: seq<Label>)
    ensures EndsWith(ls) && TimedRun(ls) && Collides(Exec(Front(ls)), Last(ls))
    ensures Last(ls) == Leaves(true, true)
  {
    ls := Joined();
    Extend(ls, Leaves(false, true));
    ls := Finish(ls + [Leaves(false, true)], Leaves(true, true));
  }

  /** Leave on the client thread before the transport is open. */
  lemma {:induction false} LeaveTooEarly() returns (ls: seq<Label>)
    ensures EndsWith(ls) && LeavesClosed(Exec(Front(ls)), Last(ls)) && |ls| == 2
  {
    Extend([], Attach(Attached(false, false, true)));
    ls := Finish([Attach(Attached(false, false, true))], Leaves(true, true));
  }

  lemma WelcomeReplaces(s: State, welcome: Label)
    requires welcome == Receive([JInt(WELCOME), JInt(7)], true) && !s.crashed
    requires s.phase == Establishing && !s.heartbeat.NotStarted?
    ensures ReplacesThread(s, welcome) && EndsProcess(s, welcome) && Do(s, welcome).state.crashed
  {
  }

  /** A second Join, answered by a second WELCOME. */
  lemma {:induction false} SecondWelcome() returns (ls: seq<Label>)
    ensures EndsWith(ls) && TimedRun(ls) && ReplacesThread(Exec(Front(ls)), Last(ls)) && Exec(ls).crashed
  {
    var welcome := Receive([JInt(WELCOME), JInt(7)], true);
    ls := Joined();
    Extend(ls, Join("realm"));
    ls := ls + [Join("realm")];
    WelcomeReplaces(Exec(ls), welcome);
    ls := Finish(ls, welcome);
  }

  lemma SecondPong(s: State, pong: Label)
    requires pong == Receive([JInt(PONG), EMPTY_OBJECT], true) && !s.crashed && !s.pong.cell.Unset?
    ensures Collides(s, pong) && EndsProcess(s, pong)
  {
  }

  /** Two PONGs within one cycle. */
  lemma {:induction false} DuplicatePong() returns (ls: seq<Label>)
    ensures EndsWith(ls) && TimedRun(ls) && Collides(Exec(Front(ls)), Last(ls)) && OnClientThread(Last(ls))
  {
    var pong := Receive([JInt(PONG), EMPTY_OBJECT], true);
    ls := EarlyPong();
    SecondPong(Exec(ls), pong);
    ls := Finish(ls, pong);
  }

  /** A PONG between the end of the 4 s wait and the controller's write of false. */
  lemma {:induction false} LatePong() returns (ls: seq<Label>)
    ensures EndsWith(ls) && TimedRun(ls) && Collides(Exec(Front(ls)), Last(ls)) && Exec(ls).crashed
    ensures Exec(Front(ls)).heartbeat.TimedOut?
  {
    var joined := Joined();
    var waiting := Pinged(joined, 0.0);
    var late := WaitedOut(waiting, 20.0);
    TimedIsRun(late);
    Extend(late, Beats);
    ls := TimedOutPong(late + [Beats]);
  }

  lemma {:induction false} TimedOutPong(ls: seq<Label>) returns (more: seq<Label>)
    requires Run(ls) && TimedRun(ls) && !Exec(ls).crashed
    requires Exec(ls).heartbeat.TimedOut? && Exec(ls).pong.cell.Unset?
    ensures EndsWith(more) && TimedRun(more) && Collides(Exec(Front(more)), Last(more)) && Exec(more).crashed
    ensures Exec(Front(more)).heartbeat.TimedOut?
  {
    var pong := Receive([JInt(PONG), EMPTY_OBJECT], true);
    Ponged(Exec(ls));
    Extend(ls, pong);
    more := Finish(ls + [pong], Beats);
  }

  /** A refused ping over an empty promise, followed to the end of the process. */
  lemma {:induction false} RefusedPingRun() returns (ls: seq<Label>, i: nat)
    ensures RefusedAt(ls, i) && Exec(ls).crashed && EndsWith(ls)
    ensures Collides(Exec(Front(ls)), Last(ls)) && Exec(ls).now == Exec(ls[..i]).now
  {
    var joined := Joined();
    var woken := Slept(joined, 0.0);
    i := |woken|;
    Extend(woken, RunsTask(false));
    var refused := woken + [RunsTask(false)];
    ls := RefusalRuns(refused);
    assert ls[..i] == woken && ls[i] == RunsTask(false);
  }

  lemma {:induction false} RefusalRuns(ls: seq<Label>) returns (more: seq<Label>)
    requires Run(ls) && TimedRun(ls) && !Exec(ls).crashed && Exec(ls).heartbeat.TakingFuture?
    requires Exec(ls).pong == Promise(Value(false), false) && !Exec(ls).leaved.cell.Unset?
    ensures more == ls + [Beats] + [Beats] + [Beats] + [Beats] && TimedRun(more) && EndsWith(more)
    ensures Collides(Exec(Front(more)), Last(more)) && Exec(more).crashed && Exec(more).now == Exec(ls).now
  {
    more := ls;
    Extend(more, Beats);
    more := more + [Beats];
    Extend(more, Beats);
    more := more + [Beats];
    Extend(more, Beats);
    more := more + [Beats];
    more := Finish(more, Beats);
  }

  /** A refused ping over a promise that already holds true: its lambda throws, although the
      controller's cycle could still complete. */
  lemma {:induction false} RefusedOverTrue() returns (ls: seq<Label>)
    ensures EndsWith(ls) && TimedRun(ls) && RefusesPing(Exec(Front(ls)), Last(ls))
    ensures exists more :: CompletesAfter(ls, more)
  {
    var early := EarlyPong();
    var woken := Slept(early, 0.0);
    ls := Finish(woken, RunsTask(false));
    RefusedPingSurvived(ls);
  }
}
