/**
 Lifecycle of the websocket transport: the flags open_ and done_, the connected_ promise,
 the connections queued with the client, the client thread, the io context both share with
 the application, and the calls that block on them.
 */
module TransportModel {
  import opened Faults
  import opened Promises

  /** The websocket client's thread, started by the constructor. */
  datatype ClientThread = Running | Finished | Joined

  datatype TransportState = TransportState(
    open: bool,
    done: bool,
    connected: Promise<()>,
    connecting: bool,       // Connect waits for connected_
    stopping: bool,         // Disconnect waits for the client thread
    client: ClientThread,
    pending: nat,           // connections queued by client_.connect, neither open nor failed
    live: nat)              // connections opened and not closed

  function Created(): TransportState {
    TransportState(false, false, Fresh(), false, false, Running, 0, 0)
  }

  function OneLess(n: nat): nat {
    if n == 0 then 0 else n - 1
  }

  predicate IsConnected(s: TransportState) {
    s.open && !s.done
  }

  datatype TransportEffect = TransportEffect(state: TransportState, outcome: Outcome)

  datatype Event =
    | Connect(initialised: bool)  // get_connection reports no error
    | ConnectReturns
    | Disconnect(onClientThread: bool, closes: bool)  // closes: client_.close reports no error
    | DisconnectReturns
    | OnOpen
    | OnClose
    | OnFail
    | ThreadEnds
    | StopContext                 // the application stops the io context,
    | RestartContext              // makes it usable again,
    | AppRuns                     // and runs it on a thread of its own

  /** Connect up to the wait; the connection is queued before get_future can throw. */
  function BeginConnect(s: TransportState, initialised: bool): TransportEffect {
    if s.open then TransportEffect(s, Threw(LogicFault))
    else if !initialised then TransportEffect(s, Threw(StandardFault))
    else
      var queued := s.(pending := s.pending + 1);
      match TakeFuture(s.connected)
      case Err(f) => TransportEffect(queued, Threw(f))
      case Ok(p) => TransportEffect(queued.(connected := p, connecting := true), Done)
  }

  function EndConnect(s: TransportState): TransportEffect {
    var out := if s.connected.cell.Failed? then Threw(s.connected.cell.fault) else Done;
    TransportEffect(s.(connecting := false), out)
  }

  /** Disconnect up to the point where StopClient joins the client thread. StopClient must
      not throw: what close or join throws in it terminates the process. */
  function BeginDisconnect(s: TransportState, onClientThread: bool, closes: bool): TransportEffect {
    if !s.open then TransportEffect(s, Threw(LogicFault))
    else if s.done then TransportEffect(s, Done)
    else if !closes then TransportEffect(s, Terminated(StandardFault))
    else if onClientThread || s.client == Joined then TransportEffect(s, Terminated(JoinFault))
    else TransportEffect(s.(stopping := true), Done)
  }

  function EndDisconnect(s: TransportState): TransportEffect {
    TransportEffect(s.(stopping := false, client := Joined, open := false), Done)
  }

  function Signal(s: TransportState, c: Cell<()>): TransportEffect
    requires !c.Unset?
  {
    match Write(s.connected, c)
    case Ok(p) => TransportEffect(s.(connected := p), Done)
    case Err(f) => TransportEffect(s, Threw(f))
  }

  function Opened(s: TransportState): TransportEffect {
    Signal(s.(open := true, pending := OneLess(s.pending), live := s.live + 1), Value(()))
  }

  function ClosedBy(s: TransportState): TransportEffect {
    TransportEffect(s.(done := true, live := OneLess(s.live)), Done)
  }

  /** A failure signals connected_ only before the connection was open; when that throws,
      done_ is not set. */
  function FailedBy(s: TransportState): TransportEffect {
    var dropped := s.(pending := OneLess(s.pending));
    if s.open then TransportEffect(dropped.(done := true), Done)
    else
      var signalled := Signal(dropped, Failed(NetworkFault));
      if signalled.outcome.Threw? then signalled
      else TransportEffect(signalled.state.(done := true), Done)
  }

  predicate CanHappen(s: TransportState, e: Event) {
    match e
    case Connect(_) => !s.connecting && !s.stopping
    case ConnectReturns => s.connecting && !s.connected.cell.Unset?
    case Disconnect(onClientThread, _) => !s.stopping && (onClientThread ==> s.client == Running)
    case DisconnectReturns => s.stopping && s.client == Finished
    case ThreadEnds => s.client == Running
    case OnOpen => s.pending > 0
    case OnFail => s.pending > 0
    case OnClose => s.live > 0
    case _ => true
  }

  function Happens(s: TransportState, e: Event): TransportEffect {
    match e
    case Connect(initialised) => BeginConnect(s, initialised)
    case ConnectReturns => EndConnect(s)
    case Disconnect(onClientThread, closes) => BeginDisconnect(s, onClientThread, closes)
    case DisconnectReturns => EndDisconnect(s)
    case OnOpen => Opened(s)
    case OnClose => ClosedBy(s)
    case OnFail => FailedBy(s)
    case ThreadEnds => TransportEffect(s.(client := Finished), Done)
    case _ => TransportEffect(s, Done)
  }

  /** The state after the first i events. */
  function After(es: seq<Event>, i: nat): TransportState
    requires i <= |es|
  {
    if i == 0 then Created() else Happens(After(es, i - 1), es[i - 1]).state
  }

  /** Each of the first i events could happen where it did. */
  predicate History(es: seq<Event>, i: nat)
    requires i <= |es|
  {
    i == 0 || (History(es, i - 1) && CanHappen(After(es, i - 1), es[i - 1]))
  }

  /** The client thread only returns once a close or fail callback has run. */
  predicate ThreadOutlivesConnection(es: seq<Event>, i: nat)
    requires i <= |es|
  {
    i == 0 || (ThreadOutlivesConnection(es, i - 1) && (es[i - 1] == ThreadEnds ==> After(es, i - 1).done))
  }

  predicate LifecycleInv(s: TransportState) {
    && (s.client != Running ==> s.done)
    && (s.stopping ==> s.open)
    && (!s.open && !s.connected.cell.Unset? ==> s.done)
  }

  lemma LifecycleEvent(s: TransportState, e: Event)
    requires CanHappen(s, e) && LifecycleInv(s) && (e == ThreadEnds ==> s.done)
    ensures LifecycleInv(Happens(s, e).state)
    ensures s.done ==> Happens(s, e).state.done
    ensures s.open && !Happens(s, e).state.done ==> Happens(s, e).state.open
  {
  }

  lemma {:induction false} LifecycleRun(es: seq<Event>, i: nat)
    requires i <= |es| && History(es, i) && ThreadOutlivesConnection(es, i)
    ensures LifecycleInv(After(es, i))
  {
    if i > 0 {
      LifecycleRun(es, i - 1);
      LifecycleEvent(After(es, i - 1), es[i - 1]);
    }
  }

  lemma {:induction false} DoneStays(es: seq<Event>, i: nat, j: nat)
    requires i <= j <= |es| && After(es, i).done
    ensures After(es, j).done
  {
    if i < j {
      DoneStays(es, i, j - 1);
    }
  }

  /** While done_ is unset, open_ is never taken back. */
  lemma {:induction false} OpenUntilDone(es: seq<Event>, i: nat, j: nat)
    requires i <= j <= |es| && History(es, j) && ThreadOutlivesConnection(es, j)
    requires After(es, i).open && !After(es, j).done
    ensures After(es, j).open
  {
    if i < j {
      LifecycleRun(es, j - 1);
      LifecycleEvent(After(es, j - 1), es[j - 1]);
      OpenUntilDone(es, i, j - 1);
    }
  }

  lemma {:induction false} HistoryPrefix(es: seq<Event>, i: nat, j: nat)
    requires i <= j <= |es|
    ensures History(es, j) ==> History(es, i)
    ensures ThreadOutlivesConnection(es, j) ==> ThreadOutlivesConnection(es, i)
  {
    if i < j {
      HistoryPrefix(es, i, j - 1);
    }
  }

  /** IsConnected is false, then true, then false for good: once it went from true to false
      no later Connect or callback brings it back. */
  lemma ConnectedOnce(es: seq<Event>, i: nat, j: nat, k: nat)
    requires i <= j <= k <= |es| && History(es, k) && ThreadOutlivesConnection(es, k)
    requires IsConnected(After(es, i)) && IsConnected(After(es, k))
    ensures IsConnected(After(es, j))
  {
    if After(es, j).done {
      DoneStays(es, j, k);
    } else {
      HistoryPrefix(es, j, k);
      OpenUntilDone(es, i, j);
    }
  }

  // ------------------------------------------------------- connecting twice

  /** Among the first n states a connected transport was disconnected and connected again. */
  ghost predicate Reconnects(es: seq<Event>, n: nat)
    requires n <= |es|
  {
    exists i: nat, j: nat, k: nat :: ReconnectsAt(es, i, j, k) && k <= n
  }

  predicate ReconnectsAt(es: seq<Event>, i: nat, j: nat, k: nat) {
    i < j < k <= |es| && IsConnected(After(es, i)) && !IsConnected(After(es, j)) && IsConnected(After(es, k))
  }

  /** A Disconnect joined the thread and after it an open callback ran, done_ being unset up
      to then. Close callbacks set done_, and so do fail callbacks that do not throw. */
  predicate ReopensAt(es: seq<Event>, m: nat, p: nat) {
    m < p < |es| && es[m] == DisconnectReturns && es[p] == OnOpen && !After(es, p + 1).done
  }

  ghost predicate Reopens(es: seq<Event>, n: nat)
    requires n <= |es|
  {
    exists m: nat, p: nat :: ReopensAt(es, m, p) && p < n
  }

  lemma {:induction false} ClearedBetween(es: seq<Event>, i: nat, j: nat) returns (m: nat)
    requires i <= j <= |es| && After(es, i).open && !After(es, j).open
    ensures i <= m < j && es[m] == DisconnectReturns
  {
    if After(es, j - 1).open {
      m := j - 1;
      OnlyDisconnectClears(After(es, m), es[m]);
    } else {
      m := ClearedBetween(es, i, j - 1);
    }
  }

  lemma OnlyDisconnectClears(s: TransportState, e: Event)
    requires s.open && !Happens(s, e).state.open
    ensures e == DisconnectReturns
  {
  }

  lemma {:induction false} SetBetween(es: seq<Event>, j: nat, k: nat) returns (p: nat)
    requires j <= k <= |es| && !After(es, j).open && After(es, k).open
    ensures j <= p < k && es[p] == OnOpen
  {
    if After(es, k - 1).open {
      p := SetBetween(es, j, k - 1);
    } else {
      p := k - 1;
      OnlyOpenSets(After(es, p), es[p]);
    }
  }

  lemma OnlyOpenSets(s: TransportState, e: Event)
    requires !s.open && Happens(s, e).state.open
    ensures e == OnOpen
  {
  }

  lemma {:induction false} StoppingIsOpen(es: seq<Event>, i: nat)
    requires i <= |es| && History(es, i)
    ensures After(es, i).stopping ==> After(es, i).open
  {
    if i > 0 {
      StoppingIsOpen(es, i - 1);
      StoppingEvent(After(es, i - 1), es[i - 1]);
    }
  }

  lemma StoppingEvent(s: TransportState, e: Event)
    requires CanHappen(s, e) && (s.stopping ==> s.open)
    ensures Happens(s, e).state.stopping ==> Happens(s, e).state.open
  {
  }

  /** A transport is connected twice if and only if a Disconnect came back and an open
      callback followed it, both with done_ unset. */
  lemma {:induction false} ConnectedTwiceExactly(es: seq<Event>, n: nat)
    requires n <= |es| && History(es, n)
    ensures Reconnects(es, n) <==> Reopens(es, n)
  {
    if Reconnects(es, n) {
      var i: nat, j: nat, k: nat :| ReconnectsAt(es, i, j, k) && k <= n;
      ReconnectNeedsReopen(es, i, j, k);
    }
    if Reopens(es, n) {
      var m: nat, p: nat :| ReopensAt(es, m, p) && p < n;
      HistoryPrefix(es, p + 1, n);
      ReopenReconnects(es, m, p);
    }
  }

  lemma {:induction false} ReconnectNeedsReopen(es: seq<Event>, i: nat, j: nat, k: nat)
    requires ReconnectsAt(es, i, j, k)
    ensures exists m: nat, p: nat :: ReopensAt(es, m, p) && p < k
  {
    UndoneBefore(es, j, k);
    var m := ClearedBetween(es, i, j);
    var p := SetBetween(es, j, k);
    UndoneBefore(es, p + 1, k);
    assert ReopensAt(es, m, p);
  }

  lemma {:induction false} UndoneBefore(es: seq<Event>, i: nat, j: nat)
    requires i <= j <= |es| && !After(es, j).done
    ensures !After(es, i).done
  {
    if After(es, i).done {
      DoneStays(es, i, j);
    }
  }

  lemma {:induction false} ReopenReconnects(es: seq<Event>, m: nat, p: nat)
    requires ReopensAt(es, m, p) && History(es, p + 1)
    ensures ReconnectsAt(es, m, m + 1, p + 1)
  {
    HistoryPrefix(es, m + 1, p + 1);
    HistoryPrefix(es, m, p + 1);
    StoppingIsOpen(es, m);
    UndoneBefore(es, m, p + 1);
  }

  /** The io context is stopped after the first i events. */
  predicate ContextStopped(es: seq<Event>, i: nat)
    requires i <= |es|
  {
    i > 0 && (es[i - 1] == StopContext || (es[i - 1] != RestartContext && ContextStopped(es, i - 1)))
  }

  /** The application is inside io_context.run(). */
  predicate AppServes(es: seq<Event>, i: nat)
    requires i <= |es|
  {
    i > 0 && (if es[i - 1] == AppRuns then !ContextStopped(es, i - 1)
              else es[i - 1] != StopContext && AppServes(es, i - 1))
  }

  predicate IsCallback(e: Event) {
    e == OnOpen || e == OnClose || e == OnFail
  }

  /** Every callback has a thread that runs it, and the client thread returns only when the
      io context is stopped or has no work left. */
  predicate Caused(es: seq<Event>, i: nat)
    requires i <= |es|
  {
    i == 0 ||
    (var s := After(es, i - 1);
     && Caused(es, i - 1)
     && (IsCallback(es[i - 1]) ==>
           !ContextStopped(es, i - 1) && (s.client == Running || AppServes(es, i - 1)))
     && (es[i - 1] == ThreadEnds ==>
           ContextStopped(es, i - 1) || (s.stopping && s.pending == 0 && s.live == 0)))
  }

  /** An application that stops its io context during a Disconnect, connects again, and then
      restarts and runs the context itself, connects one transport twice. */
  lemma ConnectedTwice() returns (es: seq<Event>)
    ensures |es| == 11 && History(es, 11) && Caused(es, 11) && Reconnects(es, 11)
    ensures es[10] == OnOpen && EndsProcess(After(es, 10), OnOpen)
  {
    es := [Connect(true), OnOpen, ConnectReturns, Disconnect(false, true), StopContext, ThreadEnds, DisconnectReturns,
           Connect(true), RestartContext, AppRuns, OnOpen];
    var up := TransportState(true, false, Promise(Value(()), true), false, false, Running, 0, 1);
    assert After(es, 0) == Created();
    assert After(es, 1) == Created().(connected := Promise(Unset, true), connecting := true, pending := 1);
    assert After(es, 2) == up.(connecting := true);
    assert After(es, 3) == up;
    assert After(es, 4) == up.(stopping := true);
    assert After(es, 5) == up.(stopping := true);
    assert After(es, 6) == up.(stopping := true, client := Finished);
    assert After(es, 7) == up.(open := false, client := Joined);
    SecondHalf(es);
    ReopeningThrows(es, 6, 10);
  }

  lemma {:induction false} SecondHalf(es: seq<Event>)
    requires es == [Connect(true), OnOpen, ConnectReturns, Disconnect(false, true), StopContext, ThreadEnds, DisconnectReturns,
                    Connect(true), RestartContext, AppRuns, OnOpen]
    requires After(es, 3) == TransportState(true, false, Promise(Value(()), true), false, false, Running, 0, 1)
    requires After(es, 7) == After(es, 3).(open := false, client := Joined)
    requires History(es, 7) && Caused(es, 7)
    ensures History(es, 11) && Caused(es, 11) && Reconnects(es, 11) && ReopensAt(es, 6, 10)
  {
    assert After(es, 8) == After(es, 7).(pending := 1) && History(es, 8) && Caused(es, 8);
    assert After(es, 9) == After(es, 8) && History(es, 9) && Caused(es, 9);
    assert !ContextStopped(es, 9);
    assert After(es, 10) == After(es, 8) && History(es, 10) && Caused(es, 10);
    assert AppServes(es, 10) && !ContextStopped(es, 10);
    assert After(es, 11) == After(es, 7).(open := true, live := 2) && History(es, 11);
    assert ReconnectsAt(es, 3, 7, 11);
  }

  // ------------------------------------------------------------- connections

  /** A Connect that hands its connection to the client. */
  predicate Queues(s: TransportState, e: Event) {
    e == Connect(true) && !s.open
  }

  /** How often an event described by p happens among the first i. */
  ghost function Tally(p: (TransportState, Event) -> bool, es: seq<Event>, i: nat): nat
    requires i <= |es|
  {
    if i == 0 then 0 else Tally(p, es, i - 1) + if p(After(es, i - 1), es[i - 1]) then 1 else 0
  }

  predicate Opens(s: TransportState, e: Event) {
    e == OnOpen
  }

  predicate Fails(s: TransportState, e: Event) {
    e == OnFail
  }

  predicate Closes(s: TransportState, e: Event) {
    e == OnClose
  }

  /** Every connection queued is pending, or was answered by open or fail; every connection
      opened is live or closed. Retries that throw have queued theirs all the same. */
  lemma {:induction false} ConnectionsAreConserved(es: seq<Event>, i: nat)
    requires i <= |es| && History(es, i)
    ensures Tally(Queues, es, i) == After(es, i).pending + Tally(Opens, es, i) + Tally(Fails, es, i)
    ensures Tally(Opens, es, i) == After(es, i).live + Tally(Closes, es, i)
  {
    if i > 0 {
      ConnectionsAreConserved(es, i - 1);
      ConnectionEvent(After(es, i - 1), es[i - 1]);
    }
  }

  lemma ConnectionEvent(s: TransportState, e: Event)
    requires CanHappen(s, e)
    ensures var t := Happens(s, e).state;
      && t.pending == s.pending + (if Queues(s, e) then 1 else 0)
                      - (if Opens(s, e) then 1 else 0) - (if Fails(s, e) then 1 else 0)
      && t.live == s.live + (if Opens(s, e) then 1 else 0) - (if Closes(s, e) then 1 else 0)
  {
  }

  /** A close callback, or a fail callback that does not throw. */
  predicate EndsConnection(s: TransportState, e: Event) {
    e == OnClose || (e == OnFail && (s.open || s.connected.cell.Unset?))
  }

  /** The last of open callbacks and returned Disconnects was an open callback. */
  predicate OpenedLast(es: seq<Event>, i: nat)
    requires i <= |es|
  {
    i > 0 && (es[i - 1] == OnOpen || (es[i - 1] != DisconnectReturns && OpenedLast(es, i - 1)))
  }

  /** open_ and done_ are what the events so far make of them. */
  lemma {:induction false} FlagsFollowEvents(es: seq<Event>, i: nat)
    requires i <= |es|
    ensures After(es, i).open <==> OpenedLast(es, i)
    ensures After(es, i).done <==> Tally(EndsConnection, es, i) > 0
  {
    if i > 0 {
      FlagsFollowEvents(es, i - 1);
      FlagEvent(After(es, i - 1), es[i - 1]);
    }
  }

  lemma FlagEvent(s: TransportState, e: Event)
    ensures Happens(s, e).state.open <==> e == OnOpen || (e != DisconnectReturns && s.open)
    ensures Happens(s, e).state.done <==> s.done || EndsConnection(s, e)
  {
  }

  /** What a Connect comes to before it waits, by what happened before it. */
  lemma {:induction false} ConnectOutcome(es: seq<Event>, i: nat)
    requires i < |es| && es[i].Connect?
    ensures Happens(After(es, i), es[i]).outcome
         == if After(es, i).open then Threw(LogicFault)
            else if !es[i].initialised then Threw(StandardFault)
            else if StartedConnects(es, i) > 0 then Threw(FutureAlreadyRetrieved)
            else Done
  {
    OneConnectWaits(es, i);
  }

  /** A Disconnect that comes back normally, at once or after its wait, leaves the transport
      not connected; one that throws found it so. */
  lemma DisconnectDisconnects(es: seq<Event>, i: nat)
    requires i < |es| && History(es, i + 1) && (es[i].Disconnect? || es[i] == DisconnectReturns)
    ensures var out, t := Happens(After(es, i), es[i]).outcome, After(es, i + 1);
      && (out.Done? ==> !IsConnected(t) || t.stopping)
      && (out.Threw? ==> !IsConnected(t) && t == After(es, i))
      && (es[i] == DisconnectReturns ==> out.Done? && !t.open && !t.stopping && t.client == Joined)
  {
  }

  /** What the first open or fail callback tells Connect. */
  function FirstSignal(es: seq<Event>, i: nat): Cell<()>
    requires i <= |es|
  {
    if i == 0 then Unset
    else if !FirstSignal(es, i - 1).Unset? then FirstSignal(es, i - 1)
    else if es[i - 1] == OnOpen then Value(())
    else if es[i - 1] == OnFail then Failed(NetworkFault)
    else Unset
  }

  lemma {:induction false} NothingOpensUnsignalled(es: seq<Event>, i: nat)
    requires i <= |es| && FirstSignal(es, i).Unset?
    ensures !After(es, i).open && After(es, i).connected.cell.Unset?
  {
    if i > 0 {
      NothingOpensUnsignalled(es, i - 1);
    }
  }

  lemma {:induction false} ConnectedHoldsFirstSignal(es: seq<Event>, i: nat)
    requires i <= |es|
    ensures After(es, i).connected.cell == FirstSignal(es, i)
  {
    if i > 0 {
      ConnectedHoldsFirstSignal(es, i - 1);
      if FirstSignal(es, i - 1).Unset? {
        NothingOpensUnsignalled(es, i - 1);
      }
    }
  }

  /** A Connect call that gets as far as waiting for connected_. */
  predicate StartsWaiting(s: TransportState, e: Event) {
    e.Connect? && Happens(s, e).outcome == Done
  }

  function StartedConnects(es: seq<Event>, i: nat): nat
    requires i <= |es|
  {
    if i == 0 then 0
    else StartedConnects(es, i - 1) + if StartsWaiting(After(es, i - 1), es[i - 1]) then 1 else 0
  }

  lemma WaitingEvent(s: TransportState, e: Event)
    ensures StartsWaiting(s, e) ==> !s.connected.retrieved
    ensures Happens(s, e).state.connected.retrieved <==> s.connected.retrieved || StartsWaiting(s, e)
  {
  }

  lemma {:induction false} OneConnectWaits(es: seq<Event>, i: nat)
    requires i <= |es|
    ensures StartedConnects(es, i) == if After(es, i).connected.retrieved then 1 else 0
  {
    if i > 0 {
      OneConnectWaits(es, i - 1);
      WaitingEvent(After(es, i - 1), es[i - 1]);
    }
  }

  /** One Connect call ever gets to wait, and it returns normally exactly when the first open
      or fail callback was an open; otherwise it throws NetworkError. */
  lemma ConnectAgreement(es: seq<Event>, i: nat)
    requires i < |es| && History(es, i + 1) && es[i] == ConnectReturns
    ensures StartedConnects(es, |es|) <= 1
    ensures !FirstSignal(es, i).Unset?
    ensures Happens(After(es, i), es[i]).outcome
         == if FirstSignal(es, i).Value? then Done else Threw(NetworkFault)
  {
    OneConnectWaits(es, |es|);
    ConnectedHoldsFirstSignal(es, i);
    FirstSignalFault(es, i);
  }

  lemma {:induction false} FirstSignalFault(es: seq<Event>, i: nat)
    requires i <= |es|
    ensures FirstSignal(es, i).Failed? ==> FirstSignal(es, i).fault == NetworkFault
  {
    if i > 0 {
      FirstSignalFault(es, i - 1);
    }
  }

  // ------------------------------------------------------- ends of the process

  /** The step terminates the process, or an exception leaves a thread inside the io context:
      the client thread, or io_context.run() of the application. */
  predicate EndsProcess(s: TransportState, e: Event) {
    var out := Happens(s, e).outcome;
    out.Terminated? || ((IsCallback(e) || (e.Disconnect? && e.onClientThread)) && out.Threw?)
  }

  /** A callback that signals connected_ a second time. */
  predicate SignalsTwice(s: TransportState, e: Event) {
    !s.connected.cell.Unset? && (e == OnOpen || (e == OnFail && !s.open))
  }

  /** A Disconnect on the client thread, or one whose websocket or thread cannot be stopped. */
  predicate CannotDisconnect(s: TransportState, e: Event) {
    e.Disconnect? &&
    if s.open then !s.done && (e.onClientThread || !e.closes || s.client == Joined) else e.onClientThread
  }

  lemma WhatEndsTheProcess(s: TransportState, e: Event)
    ensures EndsProcess(s, e) <==> SignalsTwice(s, e) || CannotDisconnect(s, e)
  {
  }

  predicate Survives(es: seq<Event>, i: nat)
    requires i <= |es|
  {
    i == 0 || (Survives(es, i - 1) && !EndsProcess(After(es, i - 1), es[i - 1]))
  }

  /** An open or a fail callback: the answer to a queued connection. */
  predicate Answers(e: Event) {
    e == OnOpen || e == OnFail
  }

  function AnswerCount(es: seq<Event>, i: nat): nat
    requires i <= |es|
  {
    if i == 0 then 0 else AnswerCount(es, i - 1) + if Answers(es[i - 1]) then 1 else 0
  }

  /** Before connected_ is signalled one connection is queued, for the Connect that waits;
      afterwards none is while the transport is open. */
  predicate AnswerInv(s: TransportState) {
    if s.connected.cell.Unset? then
      && !s.open && s.connecting == s.connected.retrieved
      && s.pending == if s.connecting then 1 else 0
    else s.open ==> s.pending == 0
  }

  lemma AnswerEvent(s: TransportState, e: Event)
    requires CanHappen(s, e) && AnswerInv(s) && (s.stopping ==> s.open) && !EndsProcess(s, e)
    ensures AnswerInv(Happens(s, e).state)
  {
  }

  lemma {:induction false} AnswerRun(es: seq<Event>, i: nat)
    requires i <= |es| && History(es, i) && Survives(es, i)
    ensures AnswerInv(After(es, i))
  {
    if i > 0 {
      AnswerRun(es, i - 1);
      StoppingIsOpen(es, i - 1);
      AnswerEvent(After(es, i - 1), es[i - 1]);
    }
  }

  /** The first answer is the only one the process outlives: every later one throws
      promise_already_satisfied out of the io context. */
  lemma {:induction false} LaterAnswersEndTheProcess(es: seq<Event>, i: nat)
    requires i < |es| && History(es, i + 1) && Survives(es, i) && Answers(es[i])
    ensures EndsProcess(After(es, i), es[i]) <==> AnswerCount(es, i) > 0
    ensures EndsProcess(After(es, i), es[i]) ==>
      Happens(After(es, i), es[i]).outcome == Threw(PromiseAlreadySatisfied)
  {
    AnswerRun(es, i);
    ConnectedHoldsFirstSignal(es, i);
    SignalledByAnswer(es, i);
    WhatEndsTheProcess(After(es, i), es[i]);
  }

  lemma {:induction false} SignalledByAnswer(es: seq<Event>, i: nat)
    requires i <= |es|
    ensures FirstSignal(es, i).Unset? <==> AnswerCount(es, i) == 0
  {
    if i > 0 {
      SignalledByAnswer(es, i - 1);
    }
  }

  lemma {:induction false} OneAnswer(es: seq<Event>, i: nat)
    requires i <= |es| && History(es, i) && Survives(es, i)
    ensures AnswerCount(es, i) <= 1
  {
    if i > 0 {
      OneAnswer(es, i - 1);
      if Answers(es[i - 1]) {
        LaterAnswersEndTheProcess(es, i - 1);
      }
    }
  }

  /** A Connect that queues its connection although an earlier call had taken the future. */
  predicate Retries(s: TransportState, e: Event) {
    e == Connect(true) && !s.open && s.connected.retrieved
  }

  /** Such a retry throws to its caller, and whatever answers the transport after it, open or
      fail, ends the process. */
  lemma {:induction false} RetryIsFatal(es: seq<Event>, k: nat, i: nat)
    requires k < i < |es| && History(es, i + 1) && Survives(es, i)
    requires Retries(After(es, k), es[k]) && Answers(es[i])
    ensures Happens(After(es, k), es[k]).outcome == Threw(FutureAlreadyRetrieved)
    ensures EndsProcess(After(es, i), es[i])
  {
    HistoryPrefix(es, k + 1, i + 1);
    HistoryPrefix(es, k, k + 1);
    SurvivesUpTo(es, k, i);
    AnswerRun(es, k);
    ConnectedHoldsFirstSignal(es, k);
    SignalledByAnswer(es, k);
    AnswersGrow(es, k, i);
    LaterAnswersEndTheProcess(es, i);
  }

  lemma {:induction false} SurvivesUpTo(es: seq<Event>, i: nat, j: nat)
    requires i <= j <= |es| && Survives(es, j)
    ensures Survives(es, i)
  {
    if i < j {
      SurvivesUpTo(es, i, j - 1);
    }
  }

  lemma {:induction false} AnswersGrow(es: seq<Event>, i: nat, j: nat)
    requires i <= j <= |es|
    ensures AnswerCount(es, i) <= AnswerCount(es, j)
  {
    if i < j {
      AnswersGrow(es, i, j - 1);
    }
  }

  /** A failed connection, tried again. */
  lemma RetryAfterFailure() returns (es: seq<Event>)
    ensures es == [Connect(true), OnFail, ConnectReturns, Connect(true), OnFail]
    ensures History(es, 5) && Caused(es, 5) && Survives(es, 4)
    ensures Retries(After(es, 3), es[3]) && EndsProcess(After(es, 4), es[4])
  {
    es := [Connect(true), OnFail, ConnectReturns, Connect(true), OnFail];
    var failed := TransportState(false, true, Promise(Failed(NetworkFault), true), false, false, Running, 0, 0);
    assert After(es, 0) == Created();
    assert After(es, 1) == Created().(connected := Promise(Unset, true), connecting := true, pending := 1);
    assert After(es, 2) == failed.(connecting := true);
    assert History(es, 2) && Caused(es, 2) && Survives(es, 2);
    assert After(es, 3) == failed && History(es, 3) && Caused(es, 3) && Survives(es, 3);
    assert After(es, 4) == failed.(pending := 1);
  }

  /** The open callback that connects a transport again throws, for connected_ was written
      when it opened first. */
  lemma {:induction false} ReopeningThrows(es: seq<Event>, m: nat, p: nat)
    requires ReopensAt(es, m, p) && History(es, p + 1)
    ensures Happens(After(es, p), es[p]).outcome == Threw(PromiseAlreadySatisfied)
    ensures EndsProcess(After(es, p), es[p])
  {
    HistoryPrefix(es, m + 1, p + 1);
    HistoryPrefix(es, m, p + 1);
    StoppingIsOpen(es, m);
    if FirstSignal(es, m).Unset? {
      NothingOpensUnsignalled(es, m);
    }
    SignalledByAnswer(es, m);
    AnswersGrow(es, m, p);
    SignalledByAnswer(es, p);
    ConnectedHoldsFirstSignal(es, p);
  }

  /** So in a process that goes on no transport is ever connected twice. */
  lemma {:induction false} ConnectedOnceWhileSurviving(es: seq<Event>, n: nat)
    requires n <= |es| && History(es, n) && Survives(es, n)
    ensures !Reconnects(es, n)
  {
    ConnectedTwiceExactly(es, n);
    if Reopens(es, n) {
      var m: nat, p: nat :| ReopensAt(es, m, p) && p < n;
      HistoryPrefix(es, p + 1, n);
      ReopeningThrows(es, m, p);
      SurvivesUpTo(es, p + 1, n);
      assert false;
    }
  }

  // ------------------------------------------------------------- destruction

  /** The destructor joins the thread only while done_ is unset; the std::thread it then
      destroys must not be joinable, and joining one twice throws in a destructor. */
  predicate DestructionIsSafe(s: TransportState) {
    if s.done then s.client == Joined else s.client != Joined
  }

  predicate Stopping(s: TransportState) {
    s.stopping || s.client == Joined
  }

  lemma {:induction false} NeverStopped(es: seq<Event>, i: nat, j: nat)
    requires i <= j <= |es| && History(es, j)
    requires After(es, i).done && !Stopping(After(es, i))
    ensures !Stopping(After(es, j))
  {
    if i < j {
      NeverStopped(es, i, j - 1);
      DoneStays(es, i, j - 1);
      NotStoppedByEvent(After(es, j - 1), es[j - 1]);
    }
  }

  lemma NotStoppedByEvent(s: TransportState, e: Event)
    requires CanHappen(s, e) && s.done && !Stopping(s)
    ensures !Stopping(Happens(s, e).state)
  {
  }

  /** A connection the server ended before Disconnect began leaves a thread nobody joins,
      whatever is called afterwards: the transport can no longer be destroyed safely. */
  lemma {:induction false} ServerCloseLeavesThread(es: seq<Event>, i: nat, j: nat)
    requires i <= j <= |es| && History(es, j)
    requires After(es, i).done && !Stopping(After(es, i))
    ensures !DestructionIsSafe(After(es, j))
  {
    DoneStays(es, i, j);
    NeverStopped(es, i, j);
  }

  lemma {:induction false} SamePast(es: seq<Event>, more: seq<Event>, i: nat)
    requires i <= |es| && es <= more
    ensures After(more, i) == After(es, i) && (History(more, i) <==> History(es, i))
  {
    if i > 0 {
      SamePast(es, more, i - 1);
    }
  }

  /** A history that goes on until the transport can be destroyed. */
  ghost predicate EndsSafely(es: seq<Event>, more: seq<Event>) {
    es <= more && History(more, |more|) && DestructionIsSafe(After(more, |more|))
  }

  lemma {:induction false} Append(es: seq<Event>, e: Event, t: TransportState) returns (more: seq<Event>)
    requires History(es, |es|) && CanHappen(After(es, |es|), e) && Happens(After(es, |es|), e).state == t
    ensures es <= more && History(more, |more|) && After(more, |more|) == t
  {
    more := es + [e];
    SamePast(es, more, |es|);
  }

  lemma {:induction false} StoppingEndsSafely(es: seq<Event>) returns (more: seq<Event>)
    requires History(es, |es|) && After(es, |es|).done && Stopping(After(es, |es|))
    ensures EndsSafely(es, more)
  {
    var s := After(es, |es|);
    more := es;
    if s.client == Running {
      more := Append(es, ThreadEnds, s.(client := Finished));
    }
    if s.client != Joined {
      more := Append(more, DisconnectReturns, s.(stopping := false, client := Joined, open := false));
    }
  }

  /** Once the connection is done, the transport can still be brought to a safe destruction
      if and only if a Disconnect had begun to wait before the close or fail callback: it is
      waiting now, or has joined the thread already. */
  lemma {:induction false} SafeDestructionExactly(es: seq<Event>)
    requires History(es, |es|) && After(es, |es|).done
    ensures (exists more :: EndsSafely(es, more)) <==> Stopping(After(es, |es|))
  {
    if Stopping(After(es, |es|)) {
      var more := StoppingEndsSafely(es);
    } else {
      forall more ensures !EndsSafely(es, more) {
        if EndsSafely(es, more) {
          SamePast(es, more, |es|);
          ServerCloseLeavesThread(more, |es|, |more|);
        }
      }
    }
  }

  /** The run every server close takes: the transport it leaves cannot be destroyed. */
  lemma ServerCloses() returns (es: seq<Event>)
    ensures |es| == 4 && History(es, 4) && Caused(es, 4)
    ensures After(es, 4).done && !Stopping(After(es, 4)) && !DestructionIsSafe(After(es, 4))
  {
    es := [Connect(true), OnOpen, ConnectReturns, OnClose];
    var up := TransportState(true, false, Promise(Value(()), true), false, false, Running, 0, 1);
    assert After(es, 0) == Created();
    assert After(es, 1) == Created().(connected := Promise(Unset, true), connecting := true, pending := 1);
    assert After(es, 2) == up.(connecting := true);
    assert After(es, 3) == up;
    assert After(es, 4) == up.(done := true, live := 0);
  }
}
