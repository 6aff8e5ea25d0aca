/** What is on the wire of a run, message by message, and how much of it there can be. */
module WireContents {
  import opened Faults
  import opened JsonValues
  import opened Promises
  import opened SessionModel
  import opened SessionMoves
  import opened SessionSafety
  import opened PromiseDiscipline

  /** Somebody called Join with the realm. */
  ghost predicate JoinedWith(ls: seq<Label>, realm: string) {
    Join(realm) in ls
  }

  /** Every realm on its way to the wire was given to a Join. */
  ghost predicate RealmsFrom(s: State, ls: seq<Label>) {
    && (s.caller.JoinDispatching? ==> JoinedWith(ls, s.caller.realm))
    && (forall i :: 0 <= i < |s.queue| && s.queue[i].SayHello? ==> JoinedWith(ls, s.queue[i].realm))
  }

  /** The messages a session writes. */
  ghost predicate Writes(m: seq<Json>, ls: seq<Label>) {
    || (exists realm :: JoinedWith(ls, realm) && m == [JInt(1), JString(realm)])
    || m == [JInt(4), JObject(map[])]
    || IsReply(m)
  }

  lemma RealmsMove(s: State, l: Label, t: State, before: seq<Label>, ls: seq<Label>)
    requires Moves(s, l, t) && RealmsFrom(s, before) && ls == before + [l]
    ensures RealmsFrom(t, ls)
    ensures t.wire != s.wire ==> |t.wire| == |s.wire| + 1 && s.wire <= t.wire && Writes(Last(t.wire), ls)
  {
    WireMove(s, l, t);
    if l.RunsTask? && s.queue[0].SayHello? {
      assert JoinedWith(ls, s.queue[0].realm);
    }
  }

  /** Every message on the wire is a HELLO with the realm of some Join, the PING, or a reply. */
  lemma {:induction false} WireIsWritten(ls: seq<Label>)
    requires Run(ls)
    ensures RealmsFrom(Exec(ls), ls)
    ensures forall i :: 0 <= i < |Exec(ls).wire| ==> Writes(Exec(ls).wire[i], ls)
  {
    if ls != [] {
      var before := Front(ls);
      WireIsWritten(before);
      LastMoves(ls);
      RealmsMove(Exec(before), Last(ls), Exec(ls), before, ls);
      forall i | 0 <= i < |Exec(ls).wire| ensures Writes(Exec(ls).wire[i], ls) {
        if i < |Exec(before).wire| {
          StillWrites(Exec(before).wire[i], before, ls);
        }
      }
    }
  }

  lemma StillWrites(m: seq<Json>, before: seq<Label>, ls: seq<Label>)
    requires Writes(m, before) && before <= ls
    ensures Writes(m, ls)
  {
    if exists realm :: JoinedWith(before, realm) && m == [JInt(1), JString(realm)] {
      var realm :| JoinedWith(before, realm) && m == [JInt(1), JString(realm)];
      assert JoinedWith(ls, realm);
    }
  }

  // ------------------------------------------------------------------ counting

  /** The link takes messages. */
  predicate Takes(s: State, delivered: bool) {
    s.link.Attached? && s.link.open && !s.link.done && delivered
  }

  predicate SendsHello(s: State, l: Label) {
    l.RunsTask? && s.queue != [] && s.queue[0].SayHello? && s.sessionId == 0 && Takes(s, l.delivered)
  }

  predicate SendsPing(s: State, l: Label) {
    l.RunsTask? && s.queue != [] && s.queue[0].SendPing? && s.sessionId != 0 && Takes(s, l.delivered)
  }

  predicate DispatchesHello(s: State, l: Label) {
    l.CallerMoves? && s.caller.JoinDispatching?
  }

  predicate RunsHello(s: State, l: Label) {
    l.RunsTask? && s.queue != [] && s.queue[0].SayHello?
  }

  predicate RunsPing(s: State, l: Label) {
    l.RunsTask? && s.queue != [] && s.queue[0].SendPing?
  }

  lemma TaskWrites(s: State, l: Label)
    requires l.RunsTask? && s.queue != []
    ensures RunTask(s, l.delivered).state.queue == s.queue[1..]
    ensures RunTask(s, l.delivered).state.wire
         == if SendsHello(s, l) then s.wire + [[JInt(1), JString(s.queue[0].realm)]]
            else if SendsPing(s, l) then s.wire + [[JInt(4), JObject(map[])]]
            else s.wire
  {
  }

  lemma {:induction false} WireCounts(s: State, l: Label)
    requires Enabled(s, l)
    ensures HellosOn(Step(s, l).wire) == HellosOn(s.wire) + One(SendsHello(s, l))
    ensures PingsOn(Step(s, l).wire) == PingsOn(s.wire) + One(SendsPing(s, l))
  {
    StepMoves(s, l);
    if l.RunsTask? {
      TaskWrites(s, l);
      WireAppend(s.wire, TaskMessage(s.queue[0]));
    } else if l.Receive? {
      ReplyCounts(s, l, Step(s, l));
    } else {
      OthersWriteNothing(s, l, Step(s, l));
    }
  }

  lemma OthersWriteNothing(s: State, l: Label, t: State)
    requires Moves(s, l, t) && !l.Receive? && !l.RunsTask?
    ensures t.wire == s.wire
  {
  }

  lemma ReplyCounts(s: State, l: Label, t: State)
    requires l.Receive? && MessageMoves(s, l, t)
    ensures HellosOn(t.wire) == HellosOn(s.wire) && PingsOn(t.wire) == PingsOn(s.wire)
  {
    if t.wire != s.wire {
      var m :| IsReply(m) && t.wire == s.wire + [m];
      WireAppend(s.wire, m);
    }
  }

  lemma {:induction false} QueueCounts(s: State, l: Label, t: State)
    requires Moves(s, l, t)
    ensures HelloTasks(t.queue) + One(RunsHello(s, l)) == HelloTasks(s.queue) + One(DispatchesHello(s, l))
    ensures PingTasks(t.queue) + One(RunsPing(s, l)) == PingTasks(s.queue) + One(DispatchesPing(s, l))
  {
    if l.CallerMoves? && s.caller.JoinDispatching? {
      HelloTasksAppend(s.queue, SayHello(s.caller.realm));
    } else if l.Beats? {
      HelloTasksAppend(s.queue, SendPing);
    }
  }

  /** Each HELLO and each PING on the wire was one task, run while the link took it, and each
      task was dispatched once: by a Join, by a beat. Nothing is sent twice and nothing that
      could be sent is lost. */
  lemma {:induction false} EveryTaskIsSentOnce(ls: seq<Label>)
    requires Run(ls)
    ensures HellosOn(Exec(ls).wire) == Tally(SendsHello, ls)
    ensures PingsOn(Exec(ls).wire) == Tally(SendsPing, ls)
    ensures HelloTasks(Exec(ls).queue) + Tally(RunsHello, ls) == Tally(DispatchesHello, ls)
    ensures PingTasks(Exec(ls).queue) + Tally(RunsPing, ls) == Tally(DispatchesPing, ls)
  {
    if ls != [] {
      EveryTaskIsSentOnce(Front(ls));
      LastMoves(ls);
      WireCounts(Exec(Front(ls)), Last(ls));
      QueueCounts(Exec(Front(ls)), Last(ls), Exec(ls));
    }
  }

  /** Nothing reaches the wire except over a link that is open and not done. */
  lemma {:induction false} NothingSentWhileDown(ls: seq<Label>, i: nat)
    requires Run(ls) && i < |ls| && Exec(ls[..i + 1]).wire != Exec(ls[..i]).wire
    ensures var s := Exec(ls[..i]); s.link.Attached? && s.link.open && !s.link.done
    ensures (ls[i].RunsTask? || ls[i].Receive?) && ls[i].delivered
  {
    RunAt(ls, i);
    MovesAt(ls, i);
    var s, l := Exec(ls[..i]), ls[i];
    if l.RunsTask? {
      TaskWrites(s, l);
    } else if l.Receive? {
      CallWritesWhileUp(s, l);
    } else {
      OthersWriteNothing(s, l, Exec(ls[..i + 1]));
    }
  }

  lemma CallWritesWhileUp(s: State, l: Label)
    requires l.Receive?
    ensures OnMessage(s, l.fields, l.delivered).state.wire != s.wire ==>
      s.link.Attached? && s.link.open && !s.link.done && l.delivered
  {
  }
}
