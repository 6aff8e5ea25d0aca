/** What every run of the session keeps: lifecycle, heartbeat bookkeeping, wire shape. */
module SessionSafety {
  import opened Faults
  import opened JsonValues
  import opened Promises
  import opened SessionModel
  import opened SessionMoves

  // --------------------------------------------------------------- heartbeat

  /** A ping has been dispatched and its cycle is not complete. */
  predicate InCycle(h: Heartbeat) {
    h.TakingFuture? || HoldsFuture(h)
  }

  predicate HoldsFuture(h: Heartbeat) {
    h.Waiting? || h.TimedOut? || h.Getting? || h.Resetting? || h.Failing? || h.Expired?
  }

  /** What the heartbeat's control point says about the promises, short of a crash. */
  predicate HeartbeatInv(s: State) {
    && !s.pong.cell.Failed?
    && (s.pong.retrieved <==> HoldsFuture(s.heartbeat))
    && (s.heartbeat.Getting? ==> !s.pong.cell.Unset?)
    && (s.heartbeat.Resetting? ==> s.pong.cell == Value(true))
    && (s.heartbeat.Failing? || s.heartbeat.Expired? ==> s.pong.cell == Value(false))
    && (s.heartbeat.Expired? ==> s.leaved.cell == Failed(TimeoutFault))
  }

  lemma HeartbeatInvMove(s: State, l: Label, t: State)
    requires Moves(s, l, t) && HeartbeatInv(s)
    ensures t.crashed || HeartbeatInv(t)
  {
  }

  lemma {:induction false} HeartbeatInvRun(ls: seq<Label>)
    requires Run(ls)
    ensures Exec(ls).crashed || HeartbeatInv(Exec(ls))
  {
    if ls != [] {
      HeartbeatInvRun(Front(ls));
      LastMoves(ls);
      HeartbeatInvMove(Exec(Front(ls)), Last(ls), Exec(ls));
    }
  }

  lemma PongNeverFails(s: State, l: Label, t: State)
    requires Moves(s, l, t) && !s.pong.cell.Failed?
    ensures !t.pong.cell.Failed?
  {
  }

  /** The handler around get() that expects a NetworkError is dead code, crash or not. */
  lemma {:induction false} GetNeverSeesAnException(ls: seq<Label>)
    requires Run(ls)
    ensures !Exec(ls).pong.cell.Failed?
  {
    if ls != [] {
      GetNeverSeesAnException(Front(ls));
      LastMoves(ls);
      PongNeverFails(Exec(Front(ls)), Last(ls), Exec(ls));
    }
  }

  /** Some thread woke the controller although nothing notifies it. */
  ghost predicate Woken(ls: seq<Label>) {
    exists i :: 0 <= i < |ls| && ls[i] == WakesSpuriously
  }

  lemma StoppedMove(s: State, l: Label, t: State)
    requires Moves(s, l, t)
    ensures t.heartbeat.Stopped? <==> s.heartbeat.Stopped? || l == WakesSpuriously
  {
  }

  lemma {:induction false} StoppedExactlyWhenWoken(ls: seq<Label>)
    requires Run(ls)
    ensures Exec(ls).heartbeat.Stopped? <==> Woken(ls)
  {
    if ls != [] {
      LastMoves(ls);
      StoppedExactlyWhenWoken(Front(ls));
      StoppedMove(Exec(Front(ls)), Last(ls), Exec(ls));
      WokenLast(ls);
    }
  }

  lemma {:induction false} WokenLast(ls: seq<Label>)
    requires ls != []
    ensures Woken(ls) <==> Woken(Front(ls)) || Last(ls) == WakesSpuriously
  {
    assert forall i :: 0 <= i < |ls| - 1 ==> Front(ls)[i] == ls[i];
    assert Last(ls) == ls[|ls| - 1];
  }

  /** What a step offers to leaved_, decided without looking at leaved_: an empty message, a
      Leave, a refused ping over an empty promise, the controller's own report. */
  function LeavedOffer(s: State, l: Label): Cell<bool> {
    match l
    case Receive(fields, _) => if fields == [] then Failed(ProtocolFault) else Unset
    case Leaves(_, _) => Value(true)
    case RunsTask(_) => if RefusesPing(s, l) && s.pong.cell.Unset? then Failed(NetworkFault) else Unset
    case Beats => if s.heartbeat.Failing? then Failed(TimeoutFault) else Unset
    case _ => Unset
  }

  predicate OffersLeaved(s: State, l: Label) {
    !LeavedOffer(s, l).Unset?
  }

  /** The first outcome a schedule offers. */
  function FirstOutcome(ls: seq<Label>): Cell<bool> {
    if ls == [] then Unset
    else if !FirstOutcome(Front(ls)).Unset? then FirstOutcome(Front(ls))
    else LeavedOffer(Exec(Front(ls)), Last(ls))
  }

  lemma OfferStep(s: State, l: Label)
    requires Enabled(s, l) && !s.pong.cell.Failed?
    ensures Step(s, l).leaved.cell == if s.leaved.cell.Unset? then LeavedOffer(s, l) else s.leaved.cell
  {
    StepMoves(s, l);
    if l.Receive? && l.fields != [] {
      MessageKeepsLeaved(s, l, Step(s, l));
    } else if l.RunsTask? {
      TaskOffers(s, l);
    } else if !l.Leaves? && !l.Receive? {
      OthersOffer(s, l, Step(s, l));
    }
  }

  lemma MessageKeepsLeaved(s: State, l: Label, t: State)
    requires l.Receive? && l.fields != [] && MessageMoves(s, l, t)
    ensures t.leaved == s.leaved
  {
  }

  lemma TaskOffers(s: State, l: Label)
    requires l.RunsTask? && s.queue != []
    ensures RunTask(s, l.delivered).state.leaved.cell
         == if s.leaved.cell.Unset? then LeavedOffer(s, l) else s.leaved.cell
  {
  }

  lemma OthersOffer(s: State, l: Label, t: State)
    requires Moves(s, l, t) && !s.pong.cell.Failed? && !l.Receive? && !l.RunsTask? && !l.Leaves?
    ensures t.leaved.cell == if s.leaved.cell.Unset? then LeavedOffer(s, l) else s.leaved.cell
  {
  }

  /** leaved_ holds exactly the first outcome. */
  lemma {:induction false} LeavedHoldsFirstOutcome(ls: seq<Label>)
    requires Run(ls)
    ensures Exec(ls).leaved.cell == FirstOutcome(ls)
  {
    if ls != [] {
      LeavedHoldsFirstOutcome(Front(ls));
      GetNeverSeesAnException(Front(ls));
      OfferStep(Exec(Front(ls)), Last(ls));
    }
  }

  /** leaved_ is unresolved exactly as long as nobody offered it an outcome. */
  lemma {:induction false} UnresolvedExactly(ls: seq<Label>)
    requires Run(ls)
    ensures Exec(ls).leaved.cell.Unset? <==> Tally(OffersLeaved, ls) == 0
  {
    LeavedHoldsFirstOutcome(ls);
    OfferedExactly(ls);
  }

  lemma {:induction false} OfferedExactly(ls: seq<Label>)
    ensures FirstOutcome(ls).Unset? <==> Tally(OffersLeaved, ls) == 0
  {
    if ls != [] {
      OfferedExactly(Front(ls));
    }
  }

  predicate LeftLoop(h: Heartbeat) {
    h.Expired? || h.Stopped?
  }

  /** A surviving controller that left its loop by itself has reported TimeoutError on
      leaved_. One dies silently exactly when it was woken and nobody resolved leaved_. */
  lemma {:induction false} SilentDeathExactly(ls: seq<Label>)
    requires Run(ls) && !Exec(ls).crashed
    ensures Exec(ls).heartbeat.Expired? ==> Exec(ls).leaved.cell == Failed(TimeoutFault)
    ensures LeftLoop(Exec(ls).heartbeat) && Exec(ls).leaved.cell.Unset?
       <==> Woken(ls) && Tally(OffersLeaved, ls) == 0
  {
    HeartbeatInvRun(ls);
    StoppedExactlyWhenWoken(ls);
    UnresolvedExactly(ls);
  }

  lemma LeavedStays(s: State, l: Label, t: State)
    requires Moves(s, l, t) && !s.leaved.cell.Unset?
    ensures t.leaved.cell == s.leaved.cell
    ensures t.heartbeat.Expired? && !s.heartbeat.Expired? ==> t.crashed
  {
  }

  /** Once somebody else has resolved leaved_, the controller never gets out of its loop by
      the timeout branch: its report would be a second write and end the process. */
  lemma {:induction false} LeavedResolvedElsewhere(ls: seq<Label>, i: nat)
    requires Run(ls) && i <= |ls| && !Exec(ls).crashed
    requires !Exec(ls[..i]).leaved.cell.Unset? && !Exec(ls[..i]).heartbeat.Expired?
    ensures !Exec(ls).heartbeat.Expired?
    ensures Exec(ls).leaved.cell == Exec(ls[..i]).leaved.cell
  {
    if i == |ls| {
      assert ls[..i] == ls;
    } else {
      assert Front(ls)[..i] == ls[..i];
      LastMoves(ls);
      LeavedResolvedElsewhere(Front(ls), i);
      LeavedStays(Exec(Front(ls)), Last(ls), Exec(ls));
    }
  }

  /** What Listen came back with is what leaved_ holds, for good: it returned its value or
      threw its exception. Or another Listen had taken the future before. */
  predicate ListenerInv(s: State) {
    match s.listener
    case NotListening => true
    case Listening => s.leaved.retrieved
    case Listened(result) =>
      || result == Err(FutureAlreadyRetrieved)
      || Reported(s.leaved.cell, result)
  }

  predicate Reported(c: Cell<bool>, result: Result<bool>) {
    match c
    case Unset => false
    case Value(b) => result == Ok(b)
    case Failed(f) => result == Err(f)
  }

  lemma ListenerMove(s: State, l: Label, t: State)
    requires Moves(s, l, t) && ListenerInv(s)
    ensures ListenerInv(t)
  {
  }

  lemma {:induction false} ListenReportsLeaved(ls: seq<Label>)
    requires Run(ls)
    ensures ListenerInv(Exec(ls))
  {
    if ls != [] {
      LastMoves(ls);
      ListenReportsLeaved(Front(ls));
      ListenerMove(Exec(Front(ls)), Last(ls), Exec(ls));
    }
  }

  /** A Listen that comes back reports the first outcome of the run, and throws exactly when
      that is an exception. */
  lemma {:induction false} ListenAgreement(ls: seq<Label>)
    requires Run(ls) && Enabled(Exec(ls), ListenReturns)
    ensures var e := Do(Exec(ls), ListenReturns);
      match FirstOutcome(ls)
      case Unset => false
      case Value(b) => e.outcome == Done && e.state.listener == Listened(Ok(b))
      case Failed(f) => e.outcome == Threw(f) && e.state.listener == Listened(Err(f))
  {
    LeavedHoldsFirstOutcome(ls);
  }

  // ------------------------------------------------------- credit conservation

  predicate DispatchesPing(s: State, l: Label) {
    l.Beats? && s.heartbeat.Dispatching?
  }

  predicate CompletesCycle(s: State, l: Label) {
    l.Beats? && s.heartbeat.Resetting?
  }

  function One(b: bool): nat {
    if b then 1 else 0
  }

  lemma CreditMove(s: State, l: Label, t: State)
    requires Moves(s, l, t) && HeartbeatInv(s) && !t.crashed
    ensures One(t.pong.cell == Value(true)) + One(CompletesCycle(s, l))
         == One(s.pong.cell == Value(true)) + One(AcceptsPong(s, l))
    ensures One(InCycle(t.heartbeat)) + One(CompletesCycle(s, l))
         == One(InCycle(s.heartbeat)) + One(DispatchesPing(s, l))
  {
  }

  /** Accepted PONGs and dispatched PINGs both equal the completed cycles, up to the one
      PONG the promise still holds and the one PING still in flight. */
  lemma {:induction false} CreditConservation(ls: seq<Label>)
    requires Run(ls) && !Exec(ls).crashed
    ensures Tally(AcceptsPong, ls) == Tally(CompletesCycle, ls) + One(Exec(ls).pong.cell == Value(true))
    ensures Tally(DispatchesPing, ls) == Tally(CompletesCycle, ls) + One(InCycle(Exec(ls).heartbeat))
    ensures -1 <= Tally(DispatchesPing, ls) - Tally(AcceptsPong, ls) <= 1
  {
    if ls != [] {
      LastMoves(ls);
      CreditConservation(Front(ls));
      HeartbeatInvRun(Front(ls));
      CreditMove(Exec(Front(ls)), Last(ls), Exec(ls));
    }
  }

  // ---------------------------------------------------------------- lifecycle

  predicate ChangesSessionId(s: State, l: Label) {
    Step(s, l).sessionId != s.sessionId
  }

  predicate LifecycleInv(s: State) {
    && s.phase != Closing
    && (s.heartbeat.NotStarted? ==> s.sessionId == 0)
  }

  lemma LifecycleMove(s: State, l: Label, t: State)
    requires Moves(s, l, t)
    ensures t.phase == (if l.Join? then Establishing else if ConsumesWelcome(s, l) then Established else s.phase)
    ensures !t.heartbeat.NotStarted? <==> !s.heartbeat.NotStarted? || ConsumesWelcome(s, l)
    ensures t.sessionId != s.sessionId ==> ConsumesWelcome(s, l) && s.heartbeat.NotStarted?
    ensures ConsumesWelcome(s, l) && !s.heartbeat.NotStarted? ==> t.crashed
  {
  }

  lemma {:induction false} LifecycleRun(ls: seq<Label>)
    requires Run(ls)
    ensures LifecycleInv(Exec(ls))
  {
    if ls != [] {
      LastMoves(ls);
      LifecycleRun(Front(ls));
      LifecycleMove(Exec(Front(ls)), Last(ls), Exec(ls));
    }
  }

  /** Every Join leads to ESTABLISHING, every WELCOME consumed there to ESTABLISHED, nothing
      else changes the state, so CLOSED is never re-entered and CLOSING never reached. */
  lemma {:induction false} PhaseChanges(ls: seq<Label>, i: nat)
    requires Run(ls) && i < |ls|
    ensures var before, after := Exec(ls[..i]), Exec(ls[..i + 1]);
      && after.phase != Closing
      && after.phase == if ls[i].Join? then Establishing
                        else if before.phase == Establishing && ConsumesWelcome(before, ls[i]) then Established
                        else before.phase
  {
    MovesAt(ls, i);
    LifecycleMove(Exec(ls[..i]), ls[i], Exec(ls[..i + 1]));
    LifecycleRun(ls[..i]);
  }

  /** At most one WELCOME is consumed without ending the process: it starts the one
      heartbeat, and only it can assign the session id, which then never changes. */
  lemma {:induction false} OneHeartbeat(ls: seq<Label>)
    requires Run(ls)
    ensures Tally(ChangesSessionId, ls) == One(Exec(ls).sessionId != 0)
    ensures !Exec(ls).crashed ==>
      Tally(ConsumesWelcome, ls) == One(!Exec(ls).heartbeat.NotStarted?)
    ensures Tally(ConsumesWelcome, ls) <= 2
    ensures Tally(ConsumesWelcome, ls) == 2 ==> Exec(ls).crashed
  {
    if ls != [] {
      LastMoves(ls);
      OneHeartbeat(Front(ls));
      LifecycleRun(Front(ls));
      LifecycleMove(Exec(Front(ls)), Last(ls), Exec(ls));
    }
  }

  /** A Join that obtains the future and begins to wait. */
  predicate BeginsToWait(s: State, l: Label) {
    l.CallerMoves? && s.caller.JoinTakingFuture? && !s.joined.retrieved
  }

  lemma WaitingMove(s: State, l: Label, t: State)
    requires Moves(s, l, t)
    ensures One(t.joined.retrieved) == One(s.joined.retrieved) + One(BeginsToWait(s, l))
    ensures l.CallerMoves? && s.caller.JoinTakingFuture? && s.joined.retrieved ==>
      t.caller == JoinFinished(Err(FutureAlreadyRetrieved))
  {
  }

  /** However often Join is called, one call waits; every other throws future_already_retrieved
      although it has put the session back into ESTABLISHING. */
  lemma {:induction false} OneJoinWaits(ls: seq<Label>)
    requires Run(ls)
    ensures Tally(BeginsToWait, ls) == One(Exec(ls).joined.retrieved)
    ensures ls != [] && Last(ls).CallerMoves? && Exec(Front(ls)).caller.JoinTakingFuture?
            && Tally(BeginsToWait, Front(ls)) == 1
            ==> Exec(ls).caller == JoinFinished(Err(FutureAlreadyRetrieved))
  {
    if ls != [] {
      LastMoves(ls);
      OneJoinWaits(Front(ls));
      WaitingMove(Exec(Front(ls)), Last(ls), Exec(ls));
    }
  }

  /** Join throws exactly what it finishes with, and its last step is the one that throws. */
  lemma JoinThrowsItsResult(s: State)
    requires Enabled(s, CallerMoves)
    ensures var e := Do(s, CallerMoves);
      match e.state.caller
      case JoinFinished(Ok(_)) => e.outcome == Done
      case JoinFinished(Err(f)) => e.outcome == Threw(f)
      case _ => e.outcome == Done
  {
  }

  // --------------------------------------------------------------- wire shape

  /** The first k messages are HELLOs and all later ones need a session. */
  predicate ShapedAt(wire: seq<seq<Json>>, k: nat) {
    && k <= |wire|
    && (forall i :: 0 <= i < k ==> IsHello(wire[i]))
    && (forall i :: k <= i < |wire| ==> IsPing(wire[i]) || IsReply(wire[i]))
  }

  lemma WireMove(s: State, l: Label, t: State)
    requires Moves(s, l, t)
    ensures t.wire == s.wire || (|t.wire| == |s.wire| + 1 && s.wire <= t.wire)
    ensures t.wire != s.wire ==>
      if s.sessionId == 0 then IsHello(Last(t.wire)) else IsPing(Last(t.wire)) || IsReply(Last(t.wire))
    ensures t.wire != s.wire ==> t.sessionId == s.sessionId
  {
  }

  lemma {:induction false} WireGrows(ls: seq<Label>, i: nat)
    requires Run(ls) && i <= |ls|
    ensures Exec(ls[..i]).wire <= Exec(ls).wire
  {
    if i == |ls| {
      assert ls[..i] == ls;
    } else {
      assert Front(ls)[..i] == ls[..i];
      LastMoves(ls);
      WireGrows(Front(ls), i);
      WireMove(Exec(Front(ls)), Last(ls), Exec(ls));
    }
  }

  lemma ShapeMove(s: State, l: Label, t: State, k: nat) returns (k': nat)
    requires Moves(s, l, t) && LifecycleInv(s)
    requires ShapedAt(s.wire, k) && (s.sessionId == 0 ==> k == |s.wire|)
    ensures ShapedAt(t.wire, k') && (t.sessionId == 0 ==> k' == |t.wire|)
  {
    WireMove(s, l, t);
    LifecycleMove(s, l, t);
    k' := if t.sessionId == 0 then |t.wire| else k;
  }

  /** The wire log is HELLO* (PING | RESULT | ERROR)*, and only HELLO* while the id is 0. */
  lemma {:induction false} WireShape(ls: seq<Label>) returns (k: nat)
    requires Run(ls)
    ensures ShapedAt(Exec(ls).wire, k)
    ensures Exec(ls).sessionId == 0 ==> k == |Exec(ls).wire|
  {
    if ls == [] {
      k := 0;
    } else {
      LastMoves(ls);
      LifecycleRun(Front(ls));
      k := WireShape(Front(ls));
      k := ShapeMove(Exec(Front(ls)), Last(ls), Exec(ls), k);
    }
  }

  /** Every message other than HELLO was sent after a WELCOME that carried a non-zero id. */
  lemma {:induction false} SessionMessagesFollowWelcome(ls: seq<Label>, i: nat)
    requires Run(ls) && i < |Exec(ls).wire| && !IsHello(Exec(ls).wire[i])
    ensures exists j :: 0 <= j < |ls| && ConsumesWelcome(Exec(ls[..j]), ls[j])
                        && Exec(ls[..j + 1]).sessionId != 0 && |Exec(ls[..j + 1]).wire| <= i
  {
    var j := AdmittedAt(ls, i);
  }

  lemma {:induction false} AdmittedAt(ls: seq<Label>, i: nat) returns (j: nat)
    requires Run(ls) && i < |Exec(ls).wire| && !IsHello(Exec(ls).wire[i])
    ensures j < |ls| && ConsumesWelcome(Exec(ls[..j]), ls[j])
            && Exec(ls[..j + 1]).sessionId != 0 && |Exec(ls[..j + 1]).wire| <= i
  {
    var before := Front(ls);
    LastMoves(ls);
    WireMove(Exec(before), Last(ls), Exec(ls));
    if i < |Exec(before).wire| {
      j := AdmittedAt(before, i);
    } else {
      j := AssignedAt(before);
      WireGrows(before, j + 1);
    }
    SamePrefix(ls, j);
  }

  lemma {:induction false} SamePrefix(ls: seq<Label>, j: nat)
    requires ls != [] && j < |ls| - 1
    ensures Front(ls)[..j] == ls[..j] && Front(ls)[..j + 1] == ls[..j + 1] && Front(ls)[j] == ls[j]
  {
  }

  /** A non-zero session id was assigned by some WELCOME. */
  lemma {:induction false} AssignedAt(ls: seq<Label>) returns (j: nat)
    requires Run(ls) && Exec(ls).sessionId != 0
    ensures j < |ls| && ConsumesWelcome(Exec(ls[..j]), ls[j])
    ensures Exec(ls[..j + 1]).sessionId != 0
  {
    LastMoves(ls);
    if Exec(Front(ls)).sessionId != 0 {
      j := AssignedAt(Front(ls));
      SamePrefix(ls, j);
    } else {
      j := |ls| - 1;
      LifecycleMove(Exec(Front(ls)), Last(ls), Exec(ls));
      assert ls[..j] == Front(ls) && ls[..j + 1] == ls;
    }
  }
}
