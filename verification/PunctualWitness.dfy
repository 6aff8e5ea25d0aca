/** A run whose peer answers in time: the hypotheses of Punctuality are met by a whole cycle. */
module PunctualWitness {
  import opened Faults
  import opened JsonValues
  import opened Promises
  import opened SessionModel
  import opened SessionMoves
  import opened SessionSafety
  import opened SessionTiming
  import opened SessionWitnesses
  import opened Punctuality

  /** The PING at index j has been answered, or is the one at index `open`. */
  ghost predicate Accounted(ls: seq<Label>, j: nat, open: int)
    requires j < |ls|
  {
    DispatchesPing(Exec(ls[..j]), ls[j]) ==> j == open || exists k :: AnswerAt(ls, j, k)
  }

  /** A timed run without refusals whose PINGs are answered but for the one at `open`. */
  ghost predicate Kept(ls: seq<Label>, open: int) {
    && TimedRun(ls)
    && (forall j :: 0 <= j < |ls| ==> Accounted(ls, j, open))
    && (forall j :: 0 <= j < |ls| ==> !RefusesPing(Exec(ls[..j]), ls[j]))
  }

  lemma {:induction false} StillAccounted(ls: seq<Label>, l: Label, j: nat, open: int)
    requires j < |ls| && Accounted(ls, j, open)
    ensures Accounted(ls + [l], j, open) && Exec((ls + [l])[..j]) == Exec(ls[..j])
  {
    var more := ls + [l];
    assert more[..j] == ls[..j];
    if DispatchesPing(Exec(ls[..j]), ls[j]) && j != open {
      var k :| AnswerAt(ls, j, k);
      assert more[..k] == ls[..k];
      assert AnswerAt(more, j, k);
    }
  }

  /** A step that dispatches no ping; it may answer the open one. */
  lemma {:induction false} KeepsOn(ls: seq<Label>, l: Label, open: int) returns (more: seq<Label>)
    requires Kept(ls, open) && Enabled(Exec(ls), l) && Prompt(Exec(ls), l)
    requires !RefusesPing(Exec(ls), l) && !DispatchesPing(Exec(ls), l)
    ensures more == ls + [l] && Kept(more, open) && Exec(more) == Do(Exec(ls), l).state
  {
    more := ls + [l];
    TimedIsRun(ls);
    Extend(ls, l);
    assert more[..|ls|] == ls;
    forall j | 0 <= j < |more|
      ensures Accounted(more, j, open) && !RefusesPing(Exec(more[..j]), more[j])
    {
      if j < |ls| {
        StillAccounted(ls, l, j, open);
      }
    }
  }

  lemma {:induction false} Dispatches(ls: seq<Label>) returns (more: seq<Label>)
    requires Kept(ls, -1) && !Exec(ls).crashed && Exec(ls).heartbeat.Dispatching?
    ensures more == ls + [Beats] && Kept(more, |ls|) && Exec(more) == Do(Exec(ls), Beats).state
    ensures Exec(more[..|ls|]).now == Exec(more).now
  {
    more := ls + [Beats];
    TimedIsRun(ls);
    Extend(ls, Beats);
    assert more[..|ls|] == ls;
    forall j | 0 <= j < |more|
      ensures Accounted(more, j, |ls|) && !RefusesPing(Exec(more[..j]), more[j])
    {
      if j < |ls| {
        StillAccounted(ls, Beats, j, -1);
        assert Accounted(more, j, |ls|);
      }
    }
  }

  lemma {:induction false} Answers(ls: seq<Label>, open: nat) returns (more: seq<Label>)
    requires Kept(ls, open) && open < |ls| && !Exec(ls).crashed && Exec(ls).pong.cell.Unset?
    requires Exec(ls).now < Exec(ls[..open]).now + 4.0
    ensures more == ls + [Receive([JInt(PONG), EMPTY_OBJECT], true)] && Kept(more, -1)
    ensures Exec(more) == Exec(ls).(pong := Exec(ls).pong.(cell := Value(true)))
  {
    var pong := Receive([JInt(PONG), EMPTY_OBJECT], true);
    Ponged(Exec(ls));
    more := KeepsOn(ls, pong, open);
    assert more[..|ls|] == ls && more[..open] == ls[..open];
    assert AnswerAt(more, open, |ls|);
    forall j | 0 <= j < |more| ensures Accounted(more, j, -1) {
      assert Accounted(more, j, open);
    }
  }

  lemma {:induction false} KeptIsPunctual(ls: seq<Label>)
    requires Kept(ls, -1)
    ensures PunctualPeer(ls)
  {
    forall j | 0 <= j < |ls| && DispatchesPing(Exec(ls[..j]), ls[j]) ensures AnsweredInTime(ls, j) {
      assert Accounted(ls, j, -1);
    }
  }

  // ------------------------------------------------------------------- the run

  lemma KeptGreeting() returns (ls: seq<Label>)
    ensures Kept(ls, -1)
    ensures Exec(ls) == Init().(phase := Establishing, link := Attached(true, false, true),
              caller := JoinTakingFuture, wire := [HelloFields("realm")])
  {
    ls := KeptAttach();
    ls := KeepsOn(ls, CallerMoves, -1);
    ls := KeepsOn(ls, RunsTask(true), -1);
  }

  lemma KeptAttach() returns (ls: seq<Label>)
    ensures Kept(ls, -1)
    ensures Exec(ls) == Init().(phase := Establishing, link := Attached(true, false, true),
              caller := JoinDispatching("realm"))
  {
    ls := KeepsOn([], Attach(Attached(true, false, true)), -1);
    ls := KeepsOn(ls, Join("realm"), -1);
  }

  lemma {:induction false} KeptJoined() returns (ls: seq<Label>)
    ensures Kept(ls, -1) && Asleep(Exec(ls), 0.0) && Exec(ls).pong == Fresh()
  {
    ls := KeptGreeting();
    ls := KeepsOn(ls, CallerMoves, -1);
    Welcomed(Exec(ls));
    ls := KeepsOn(ls, Receive([JInt(WELCOME), JInt(7)], true), -1);
    ls := KeepsOn(ls, CallerMoves, -1);
  }

  lemma {:induction false} KeptPing(ls: seq<Label>) returns (more: seq<Label>, open: nat)
    requires Kept(ls, -1) && Asleep(Exec(ls), 0.0) && Exec(ls).pong == Fresh()
    ensures open < |more| && Kept(more, open) && Exec(more[..open]).now == 20.0
    ensures Exec(more) == Exec(ls).(now := 20.0, queue := [SendPing], heartbeat := TakingFuture)
  {
    more := KeepsOn(ls, Tick(20.0), -1);
    more := KeepsOn(more, Beats, -1);
    open := |more|;
    more := Dispatches(more);
  }

  lemma {:induction false} KeptWait(ls: seq<Label>, open: nat) returns (more: seq<Label>)
    requires Kept(ls, open) && open < |ls| && Exec(ls[..open]).now == 20.0 && Exec(ls).now == 20.0
    requires !Exec(ls).crashed && Exec(ls).link == Attached(true, false, true) && Exec(ls).sessionId == 7
    requires Exec(ls).queue == [SendPing] && Exec(ls).heartbeat.TakingFuture? && Exec(ls).pong == Fresh()
    ensures Kept(more, -1)
    ensures Exec(more) == Exec(ls).(queue := [], wire := Exec(ls).wire + [PingFields()],
              pong := Promise(Value(true), true), heartbeat := Waiting(20.0))
  {
    more := KeptSend(ls, open);
    assert more[..open] == ls[..open];
    more := Answers(more, open);
  }

  lemma {:induction false} KeptSend(ls: seq<Label>, open: nat) returns (more: seq<Label>)
    requires Kept(ls, open) && open < |ls| && Exec(ls).now == 20.0
    requires !Exec(ls).crashed && Exec(ls).link == Attached(true, false, true) && Exec(ls).sessionId == 7
    requires Exec(ls).queue == [SendPing] && Exec(ls).heartbeat.TakingFuture? && Exec(ls).pong == Fresh()
    ensures ls <= more && Kept(more, open)
    ensures Exec(more) == Exec(ls).(queue := [], wire := Exec(ls).wire + [PingFields()],
              pong := Promise(Unset, true), heartbeat := Waiting(20.0))
  {
    more := KeepsOn(ls, RunsTask(true), open);
    more := KeepsOn(more, Beats, open);
  }

  /** A peer that answers the first PING at once: the cycle completes and the heartbeat sleeps
      its next 20 s to the end. */
  lemma {:induction false} PunctualCycle() returns (ls: seq<Label>)
    ensures TimedRun(ls) && PunctualPeer(ls) && !Exec(ls).crashed
    ensures Exec(ls).now == 40.0 && Exec(ls).heartbeat == Sleeping(20.0) && Exec(ls).leaved.cell.Unset?
    ensures PingFields() in Exec(ls).wire
  {
    ls := KeptJoined();
    var open;
    ls, open := KeptPing(ls);
    ls := KeptWait(ls, open);
    assert Exec(ls).wire[|Exec(ls).wire| - 1] == PingFields();
    ls := KeptRest(ls);
    KeptIsPunctual(ls);
  }

  lemma {:induction false} KeptReset(ls: seq<Label>) returns (more: seq<Label>)
    requires Kept(ls, -1) && !Exec(ls).crashed
    requires Exec(ls).heartbeat == Waiting(20.0) && Exec(ls).pong == Promise(Value(true), true)
    ensures Kept(more, -1) && Exec(more) == Exec(ls).(heartbeat := Resetting)
  {
    more := KeepsOn(ls, Beats, -1);
    more := KeepsOn(more, Beats, -1);
  }

  lemma {:induction false} KeptRest(ls: seq<Label>) returns (more: seq<Label>)
    requires Kept(ls, -1) && !Exec(ls).crashed && Exec(ls).now == 20.0 && Exec(ls).queue == []
    requires Exec(ls).heartbeat == Waiting(20.0) && Exec(ls).pong == Promise(Value(true), true)
    requires Exec(ls).caller.JoinFinished? && Exec(ls).leaved.cell.Unset?
    ensures Kept(more, -1)
    ensures Exec(more) == Exec(ls).(now := 40.0, heartbeat := Sleeping(20.0), pong := Fresh())
  {
    more := KeptReset(ls);
    more := KeepsOn(more, Beats, -1);
    more := KeepsOn(more, Tick(20.0), -1);
  }
}
