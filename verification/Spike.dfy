/**
 The state-machine spike: a Handler thread polls a shared state once a second while the
 websocket thread runs one callback at a time. Each read and each write of the state is
 one atomic step, so a callback can fall between the Handler's read and its write.
 */
module Spike {
  import opened Faults
  import opened JsonValues
  import Protocol

  datatype Channel = Open | Connected | Greeted | Registered | Disconnected

  /** Control points of Handler. */
  datatype HandlerPoint =
    | Polling                    // about to read the state
    | SendingHello               // has read Connected
    | Greeting(failed: bool)     // HELLO attempted, about to write Greeted
    | SendingPing                // has read Registered with timeout == 30
    | Left                       // out of the loop

  /** Control points of the websocket thread. */
  datatype CallbackPoint =
    | Idle
    | Parsed(message: Json)      // OnMessage, about to read the state
    | Accepting(message: Json)   // a WELCOME seen in Greeted, about to write Registered
    | Escaped                    // an exception left the callback, which ends the process

  datatype EndpointState = EndpointState(
    channel: Channel,
    handler: HandlerPoint,
    timeout: nat,
    callback: CallbackPoint)

  function Created(): EndpointState {
    EndpointState(Open, Polling, 0, Idle)
  }

  datatype Event =
    | OnOpen
    | OnCloseOrFail
    | OnMessage(message: Option<Json>)  // what Parse makes of the text, None if it throws
    | CallbackMoves
    | HandlerMoves(delivered: bool)  // what the websocket reports if this step sends

  predicate CanHappen(s: EndpointState, e: Event) {
    && !s.callback.Escaped?
    && match e
    case OnOpen => s.callback.Idle?
    case OnCloseOrFail => s.callback.Idle?
    case OnMessage(_) => s.callback.Idle?
    case CallbackMoves => !s.callback.Idle?
    case HandlerMoves(_) => !s.handler.Left?
  }

  /** A message with the tag of WELCOME that its decoder reads. */
  predicate IsWelcome(message: Json) {
    && Protocol.GetMessageType(message) == Ok(Protocol.WELCOME)
    && Protocol.Decode(Protocol.WelcomeKind, message).Ok?
  }

  /** What one callback does with a message it reads in Greeted: a WELCOME is accepted, ABORT
      and every other type close, and nothing catches what reading the message throws. */
  function Judge(message: Json): CallbackPoint {
    match Protocol.GetMessageType(message)
    case Err(_) => Escaped
    case Ok(tag) =>
      if tag == Protocol.WELCOME then
        if IsWelcome(message) then Accepting(message) else Escaped
      else if tag == Protocol.ABORT then
        if Protocol.Decode(Protocol.AbortKind, message).Ok? then Idle else Escaped
      else Idle
  }

  function ReadsState(s: EndpointState, message: Json): EndpointState {
    s.(callback := if s.channel == Greeted then Judge(message) else Idle)
  }

  /** One step of Handler: a poll of the state, a send, or the write after a HELLO. */
  function HandlerStep(s: EndpointState, delivered: bool): EndpointState {
    match s.handler
    case Polling => (
      match s.channel
      case Open => s
      case Connected => s.(handler := SendingHello)
      case Greeted => s
      case Registered =>
        if s.timeout == 30 then s.(handler := SendingPing) else s.(timeout := s.timeout + 1)
      case Disconnected => s.(handler := Left))
    case SendingHello => s.(handler := Greeting(!delivered))
    case Greeting(failed) => s.(channel := Greeted, handler := if failed then Left else Polling)
    case SendingPing => s.(timeout := 0, handler := if delivered then Polling else Left)
    case Left => s
  }

  function Happens(s: EndpointState, e: Event): EndpointState {
    match e
    case OnOpen => s.(channel := Connected)
    case OnCloseOrFail => s.(channel := Disconnected)
    case OnMessage(message) =>
      s.(callback := if message.Some? then Parsed(message.value) else Escaped)
    case CallbackMoves => (
      match s.callback
      case Parsed(message) => ReadsState(s, message)
      case Accepting(_) => s.(channel := Registered, callback := Idle)
      case _ => s)
    case HandlerMoves(delivered) => HandlerStep(s, delivered)
  }

  function After(es: seq<Event>, i: nat): EndpointState
    requires i <= |es|
  {
    if i == 0 then Created() else Happens(After(es, i - 1), es[i - 1])
  }

  predicate History(es: seq<Event>, i: nat)
    requires i <= |es|
  {
    i == 0 || (History(es, i - 1) && CanHappen(After(es, i - 1), es[i - 1]))
  }

  /** How often an event described by p happens among the first i. */
  ghost function Tally(p: (EndpointState, Event) -> bool, es: seq<Event>, i: nat): nat
    requires i <= |es|
  {
    if i == 0 then 0
    else Tally(p, es, i - 1) + if p(After(es, i - 1), es[i - 1]) then 1 else 0
  }

  predicate Opens(s: EndpointState, e: Event) {
    e.OnOpen?
  }

  predicate AttemptsHello(s: EndpointState, e: Event) {
    e.HandlerMoves? && s.handler.SendingHello?
  }

  predicate AttemptsPing(s: EndpointState, e: Event) {
    e.HandlerMoves? && s.handler.SendingPing?
  }

  predicate ObservesRegistered(s: EndpointState, e: Event) {
    e.HandlerMoves? && s.handler.Polling? && s.channel == Registered
  }

  /** A poll that sees the connection ended. */
  predicate NoticesEnd(s: EndpointState, e: Event) {
    e.HandlerMoves? && s.handler.Polling? && s.channel == Disconnected
  }

  predicate WritesGreeted(s: EndpointState, e: Event) {
    e.HandlerMoves? && s.handler.Greeting?
  }

  // ------------------------------------------------------------ HELLO attempts

  /** A connection the Handler has seen, or may still see, open but not greeted. */
  function Ungreeted(s: EndpointState): nat {
    if s.handler.SendingHello? || (s.channel == Connected && !s.handler.Greeting?) then 1 else 0
  }

  lemma {:induction false} HelloNeedsOpen(es: seq<Event>, i: nat)
    requires i <= |es| && History(es, i)
    ensures Tally(AttemptsHello, es, i) + Ungreeted(After(es, i)) <= Tally(Opens, es, i)
    ensures Interleaved(After(es, i))
  {
    if i > 0 {
      HelloNeedsOpen(es, i - 1);
    }
  }

  /** While the Handler holds a read of Connected nobody else can have greeted, so a WELCOME
      being accepted finds the state still Greeted. */
  predicate Interleaved(s: EndpointState) {
    && (s.handler.SendingHello? || s.handler.Greeting? ==>
          s.channel == Connected || s.channel == Disconnected)
    && (s.callback.Accepting? ==> s.channel == Greeted)
    && s.timeout <= 30
    && (s.handler.SendingPing? ==> s.timeout == 30)
  }

  /** The first i events contain a HELLO attempt if the state got past Connected. */
  lemma {:induction false} GreetedAfterHello(es: seq<Event>, i: nat)
    requires i <= |es| && History(es, i)
    ensures (After(es, i).channel == Greeted || After(es, i).channel == Registered
             || After(es, i).handler.Greeting?) ==> Tally(AttemptsHello, es, i) > 0
    ensures Interleaved(After(es, i))
  {
    if i > 0 {
      GreetedAfterHello(es, i - 1);
      HelloNeedsOpen(es, i - 1);
    }
  }

  /** A callback under way works on a message that arrived. */
  lemma {:induction false} CallbackOrigin(es: seq<Event>, i: nat) returns (k: nat)
    requires i <= |es| && (After(es, i).callback.Parsed? || After(es, i).callback.Accepting?)
    ensures k < i && es[k] == OnMessage(Some(After(es, i).callback.message))
    ensures After(es, i).callback.Accepting? ==> IsWelcome(After(es, i).callback.message)
  {
    if es[i - 1].OnMessage? {
      k := i - 1;
    } else {
      k := CallbackOrigin(es, i - 1);
    }
  }

  /** Registered is entered only from Greeted, on a WELCOME that arrived earlier and decodes,
      after a HELLO attempt. */
  lemma RegisteredByWelcome(es: seq<Event>, i: nat)
    requires i < |es| && History(es, i + 1)
    requires After(es, i + 1).channel == Registered && After(es, i).channel != Registered
    ensures After(es, i).channel == Greeted && es[i] == CallbackMoves
    ensures exists k, m :: 0 <= k < i && es[k] == OnMessage(Some(m)) && IsWelcome(m)
    ensures Tally(AttemptsHello, es, i) > 0
  {
    GreetedAfterHello(es, i);
    var k := CallbackOrigin(es, i);
    assert es[k] == OnMessage(Some(After(es, i).callback.message));
  }

  /** Only the Handler moves in es[i..j]. */
  predicate OnlyHandler(es: seq<Event>, i: nat, j: nat)
    requires i <= j <= |es|
  {
    forall k :: i <= k < j ==> es[k].HandlerMoves?
  }

  lemma {:induction false} CallbackKept(es: seq<Event>, i: nat, j: nat)
    requires i <= j <= |es| && OnlyHandler(es, i, j)
    ensures After(es, j).callback == After(es, i).callback
  {
    if i < j {
      CallbackKept(es, i, j - 1);
    }
  }

  /** A WELCOME that arrives at index i and is read in Greeted at index a leads to Registered at
      index b, wherever the Handler's steps fall; a message that is none of the kind does not. */
  lemma {:induction false} WelcomeRegisters(es: seq<Event>, i: nat, a: nat, b: nat, m: Json)
    requires i < a < b < |es| && History(es, b) && es[i] == OnMessage(Some(m))
    requires OnlyHandler(es, i + 1, a) && es[a] == CallbackMoves && After(es, a).channel == Greeted
    requires OnlyHandler(es, a + 1, b) && es[b] == CallbackMoves
    ensures History(es, b + 1) <==> IsWelcome(m)
    ensures IsWelcome(m) ==> After(es, b + 1).channel == Registered && After(es, b + 1).callback.Idle?
  {
    CallbackKept(es, i + 1, a);
    CallbackKept(es, a + 1, b);
    assert After(es, i + 1).callback == Parsed(m);
    assert After(es, a + 1).callback == Judge(m);
    assert IsWelcome(m) <==> Judge(m).Accepting?;
  }

  /** The messages a callback in Greeted cannot read: no type, or a WELCOME (2) or ABORT (3)
      that does not decode. */
  predicate Unreadable(m: Json) {
    || Protocol.GetMessageType(m).Err?
    || (Protocol.GetMessageType(m) == Ok(2) && Protocol.Decode(Protocol.WelcomeKind, m).Err?)
    || (Protocol.GetMessageType(m) == Ok(3) && Protocol.Decode(Protocol.AbortKind, m).Err?)
  }

  /** The websocket thread ends by an exception exactly at a text that does not parse and at an
      unreadable message it reads in Greeted. */
  lemma EscapesExactly(es: seq<Event>, i: nat)
    requires i < |es| && History(es, i + 1)
    ensures After(es, i + 1).callback.Escaped? <==>
      || es[i] == OnMessage(None)
      || (es[i] == CallbackMoves && After(es, i).callback.Parsed?
          && After(es, i).channel == Greeted && Unreadable(After(es, i).callback.message))
  {
  }

  /** Who writes the shared state, and what: the last event of these four kinds decides it. */
  predicate Writes(s: EndpointState, e: Event, c: Channel) {
    match c
    case Connected => e == OnOpen
    case Disconnected => e == OnCloseOrFail
    case Greeted => WritesGreeted(s, e)
    case Registered => e == CallbackMoves && s.callback.Accepting?
    case Open => false
  }

  lemma StateIsLastWrite(es: seq<Event>, i: nat, c: Channel)
    requires i < |es| && History(es, i + 1)
    ensures Writes(After(es, i), es[i], c) ==> After(es, i + 1).channel == c
    ensures (forall d :: !Writes(After(es, i), es[i], d)) ==> After(es, i + 1).channel == After(es, i).channel
  {
    assert Writes(After(es, i), es[i], Connected) || Writes(After(es, i), es[i], Disconnected)
        || Writes(After(es, i), es[i], Greeted) || Writes(After(es, i), es[i], Registered)
        || After(es, i + 1).channel == After(es, i).channel;
  }

  /** A poll of Connected is followed, whatever the callbacks do, by one HELLO attempt and the
      write of Greeted; i, a and b are the Handler's three steps. */
  lemma {:induction false} PollThenHelloThenGreeted(es: seq<Event>, i: nat, a: nat, b: nat)
    requires i < a < b < |es| && History(es, b + 1)
    requires es[i].HandlerMoves? && After(es, i).handler.Polling? && After(es, i).channel == Connected
    requires es[a].HandlerMoves? && forall k :: i < k < a ==> !es[k].HandlerMoves?
    requires es[b].HandlerMoves? && forall k :: a < k < b ==> !es[k].HandlerMoves?
    ensures AttemptsHello(After(es, a), es[a])
    ensures After(es, b + 1).channel == Greeted
    ensures After(es, b + 1).handler == if es[a].delivered then Polling else Left
  {
    HandlerKept(es, i + 1, a);
    HandlerKept(es, a + 1, b);
  }

  lemma {:induction false} HandlerKept(es: seq<Event>, i: nat, j: nat)
    requires i <= j <= |es| && forall k :: i <= k < j ==> !es[k].HandlerMoves?
    ensures After(es, j).handler == After(es, i).handler
  {
    if i < j {
      HandlerKept(es, i, j - 1);
    }
  }

  /** The Handler leaves its loop exactly at a poll that observes the end, after a HELLO whose
      sending failed, and at a PING whose sending fails. */
  lemma LeavesExactly(es: seq<Event>, i: nat)
    requires i < |es| && History(es, i + 1) && !After(es, i).handler.Left?
    ensures var s := After(es, i);
      After(es, i + 1).handler.Left? <==>
        && es[i].HandlerMoves?
        && (|| (s.handler.Polling? && s.channel == Disconnected)
            || s.handler == Greeting(true)
            || (s.handler.SendingPing? && !es[i].delivered))
  {
  }

  /** HELLO attempts never exceed open callbacks. */
  lemma HellosBoundedByOpens(es: seq<Event>, i: nat)
    requires i <= |es| && History(es, i)
    ensures Tally(AttemptsHello, es, i) <= Tally(Opens, es, i)
  {
    HelloNeedsOpen(es, i);
  }

  // ------------------------------------------------------- leaving Disconnected

  predicate HoldsStaleRead(s: EndpointState) {
    s.handler.SendingHello? || s.handler.Greeting?
  }

  /** Unless it is opened again, the only way out of Disconnected is the Handler writing
      Greeted on the strength of a Connected it read earlier. */
  lemma OutOfDisconnected(es: seq<Event>, i: nat)
    requires i < |es| && History(es, i + 1) && !es[i].OnOpen?
    requires After(es, i).channel == Disconnected && After(es, i + 1).channel != Disconnected
    ensures WritesGreeted(After(es, i), es[i]) && After(es, i + 1).channel == Greeted
  {
    HelloNeedsOpen(es, i);
  }

  /** No open callback in es[i..j]. */
  predicate NoOpen(es: seq<Event>, i: nat, j: nat)
    requires i <= j <= |es|
  {
    forall k :: i <= k < j ==> !es[k].OnOpen?
  }

  /** A Handler that held no stale read when the connection ended sees Disconnected for
      ever, so its next poll leaves the loop. */
  lemma {:induction false} StaysDisconnected(es: seq<Event>, i: nat, j: nat)
    requires i <= j <= |es| && History(es, j) && NoOpen(es, i, j)
    requires After(es, i).channel == Disconnected && !HoldsStaleRead(After(es, i))
    ensures After(es, j).channel == Disconnected && !HoldsStaleRead(After(es, j))
  {
    if i < j {
      StaysDisconnected(es, i, j - 1);
      HelloNeedsOpen(es, j - 1);
    }
  }

  /** So the end is noticed: its next step is the last one, unless that sends the PING it was
      about to send. */
  lemma {:induction false} EndIsNoticed(es: seq<Event>, i: nat, j: nat)
    requires i <= j < |es| && History(es, j + 1) && NoOpen(es, i, j)
    requires After(es, i).channel == Disconnected && !HoldsStaleRead(After(es, i))
    requires es[j].HandlerMoves?
    ensures After(es, j + 1).handler == if After(es, j).handler.SendingPing? && es[j].delivered then Polling else Left
  {
    StaysDisconnected(es, i, j);
  }

  /** The Handler misses the end of a connection, exactly by writing its stale Greeted: while
      nothing closes or opens again, the state is Disconnected until that write and never
      afterwards, so the Handler never takes its Disconnected branch. */
  lemma {:induction false} MissedDisconnect(es: seq<Event>, i: nat, j: nat)
    requires i <= j <= |es| && History(es, j) && NoOpen(es, i, j)
    requires forall k :: i <= k < j ==> !es[k].OnCloseOrFail?
    requires After(es, i).channel == Disconnected && HoldsStaleRead(After(es, i))
    ensures After(es, j).channel == Disconnected <==> Tally(WritesGreeted, es, j) == Tally(WritesGreeted, es, i)
    ensures After(es, j).channel == Disconnected ==> HoldsStaleRead(After(es, j))
    ensures After(es, j).channel != Connected
    ensures Tally(WritesGreeted, es, j) <= Tally(WritesGreeted, es, i) + 1
    ensures Tally(NoticesEnd, es, j) == Tally(NoticesEnd, es, i)
    ensures After(es, j).channel != Disconnected ==> !HoldsStaleRead(After(es, j))
  {
    if i < j {
      MissedDisconnect(es, i, j - 1);
      HelloNeedsOpen(es, j - 1);
      MissedEvent(After(es, j - 1), es[j - 1]);
    }
  }

  lemma MissedEvent(s: EndpointState, e: Event)
    requires CanHappen(s, e) && Interleaved(s) && !e.OnOpen? && !e.OnCloseOrFail? && s.channel != Connected
    requires s.channel == Disconnected <==> HoldsStaleRead(s)
    ensures var t := Happens(s, e);
      && t.channel != Connected && (t.channel == Disconnected <==> HoldsStaleRead(t))
      && (WritesGreeted(s, e) <==> s.channel == Disconnected && t.channel != Disconnected)
      && (s.channel != Disconnected ==> t.channel != Disconnected)
      && !NoticesEnd(s, e)
  {
  }

  /** Whether the HELLO of the stale read is reported delivered: by the Handler's next step,
      or already before the connection ended. */
  predicate HelloReported(es: seq<Event>, i: nat)
    requires i < |es|
  {
    match After(es, i).handler
    case Greeting(failed) => !failed
    case _ => es[i].HandlerMoves? && es[i].delivered
  }

  /** Handler's steps until it writes Greeted. */
  function StepsToGreet(h: HandlerPoint): nat {
    if h.SendingHello? then 2 else 1
  }

  /** No callback starts in es[i..j]. */
  predicate Quiet(es: seq<Event>, i: nat, j: nat)
    requires i <= j <= |es|
  {
    forall k :: i <= k < j ==> es[k].HandlerMoves? || es[k].CallbackMoves?
  }

  /** Once a connection ended under a stale read, and nothing more comes from it, the Handler
      leaves if and only if its HELLO was reported undelivered, and then right after it wrote
      Greeted; otherwise it polls Greeted for ever. */
  lemma {:induction false} PollsForeverExactly(es: seq<Event>, i: nat, j: nat)
    requires 0 < i < j <= |es| && History(es, j) && Quiet(es, i, j)
    requires es[i - 1] == OnCloseOrFail && HoldsStaleRead(After(es, i))
    ensures j < i + StepsToGreet(After(es, i).handler) ==>
      After(es, j) == After(es, i).(handler := Greeting(!HelloReported(es, i)))
    ensures j >= i + StepsToGreet(After(es, i).handler) ==>
      After(es, j) == After(es, i).(channel := Greeted, handler := if HelloReported(es, i) then Polling else Left)
  {
    HistoryUpTo(es, i, j);
    if j > i + 1 {
      PollsForeverExactly(es, i, j - 1);
    }
  }

  /** A connection that ends between the Handler's HELLO, which was delivered, and its write
      of Greeted: however long it is watched, the Handler polls. */
  lemma {:induction false} PollsForever(n: nat) returns (es: seq<Event>)
    ensures |es| == 5 + n && History(es, |es|)
    ensures es[..5] == [OnOpen, HandlerMoves(true), HandlerMoves(true), OnCloseOrFail, HandlerMoves(true)]
    ensures Quiet(es, 4, |es|)
    ensures After(es, |es|) == EndpointState(Greeted, Polling, 0, Idle)
  {
    es := DeliveredHello();
    for k := 0 to n
      invariant |es| == 5 + k && History(es, |es|) && Quiet(es, 4, |es|)
      invariant es[..5] == [OnOpen, HandlerMoves(true), HandlerMoves(true), OnCloseOrFail, HandlerMoves(true)]
      invariant After(es, |es|) == EndpointState(Greeted, Polling, 0, Idle)
    {
      es := Polls(es);
    }
  }

  lemma DeliveredHello() returns (es: seq<Event>)
    ensures es == [OnOpen, HandlerMoves(true), HandlerMoves(true), OnCloseOrFail, HandlerMoves(true)]
    ensures History(es, 5) && After(es, 5) == EndpointState(Greeted, Polling, 0, Idle)
  {
    es := [OnOpen, HandlerMoves(true), HandlerMoves(true), OnCloseOrFail, HandlerMoves(true)];
    assert After(es, 0) == Created();
    assert After(es, 1) == EndpointState(Connected, Polling, 0, Idle);
    assert After(es, 2) == EndpointState(Connected, SendingHello, 0, Idle);
    assert After(es, 3) == EndpointState(Connected, Greeting(false), 0, Idle);
    assert After(es, 4) == EndpointState(Disconnected, Greeting(false), 0, Idle);
    assert History(es, 0) && History(es, 1) && History(es, 2) && History(es, 3) && History(es, 4);
  }

  /** A connection that ends between the Handler's read and its HELLO, which is therefore
      reported undelivered: the Handler leaves, in Greeted. */
  lemma UndeliveredHello() returns (es: seq<Event>)
    ensures es == [OnOpen, HandlerMoves(true), OnCloseOrFail, HandlerMoves(false), HandlerMoves(true)]
    ensures History(es, 5) && After(es, 5) == EndpointState(Greeted, Left, 0, Idle)
  {
    es := [OnOpen, HandlerMoves(true), OnCloseOrFail, HandlerMoves(false), HandlerMoves(true)];
    assert After(es, 0) == Created();
    assert After(es, 1) == EndpointState(Connected, Polling, 0, Idle);
    assert After(es, 2) == EndpointState(Connected, SendingHello, 0, Idle);
    assert After(es, 3) == EndpointState(Disconnected, SendingHello, 0, Idle);
    assert After(es, 4) == EndpointState(Disconnected, Greeting(true), 0, Idle);
    assert History(es, 0) && History(es, 1) && History(es, 2) && History(es, 3) && History(es, 4);
  }

  lemma Polls(es: seq<Event>) returns (more: seq<Event>)
    requires History(es, |es|) && After(es, |es|).handler.Polling?
    requires After(es, |es|).channel == Greeted && After(es, |es|).callback.Idle?
    ensures more == es + [HandlerMoves(true)] && History(more, |more|)
    ensures After(more, |more|) == After(es, |es|)
  {
    more := es + [HandlerMoves(true)];
    SamePast(es, more, |es|);
  }

  lemma {:induction false} SamePast(es: seq<Event>, more: seq<Event>, i: nat)
    requires i <= |es| && es <= more
    ensures After(more, i) == After(es, i) && (History(more, i) <==> History(es, i))
  {
    if i > 0 {
      SamePast(es, more, i - 1);
    }
  }

  // --------------------------------------------------------------- ping cadence

  /** After n polls that observed Registered, n / 31 pings were attempted and the counter is
      at n % 31, however the polls interleave with other states. */
  lemma {:induction false} PingCadence(es: seq<Event>, i: nat)
    requires i <= |es| && History(es, i)
    ensures var n, s := Tally(ObservesRegistered, es, i), After(es, i);
      if s.handler.SendingPing?
      then n % 31 == 0 && Tally(AttemptsPing, es, i) == n / 31 - 1
      else Tally(AttemptsPing, es, i) == n / 31 && s.timeout == n % 31
    ensures After(es, i).timeout <= 30 && (After(es, i).handler.SendingPing? ==> After(es, i).timeout == 30)
  {
    if i > 0 {
      PingCadence(es, i - 1);
    }
  }

  // ----------------------------------------------------------- the endpoint

  function Occurrences(observed: seq<Channel>, c: Channel): nat {
    if observed == [] then 0
    else Occurrences(observed[..|observed| - 1], c) + if observed[|observed| - 1] == c then 1 else 0
  }

  /** Iteration k sends a PING: it is the 31st, 62nd, ... to observe Registered. */
  predicate SendsPing(observed: seq<Channel>, k: nat)
    requires k < |observed|
  {
    observed[k] == Registered && Occurrences(observed[..k], Registered) % 31 == 30
  }

  /** Iteration k ends the loop: it observes the end, or what it sends is not delivered. */
  predicate Ends(observed: seq<Channel>, delivered: seq<bool>, k: nat)
    requires k < |observed| == |delivered|
  {
    observed[k] == Disconnected || (!delivered[k] && (observed[k] == Connected || SendsPing(observed, k)))
  }

  class WebsocketEndpoint {
    var state: Channel
    var handler: HandlerPoint
    var timeout: nat
    var callback: CallbackPoint

    ghost function View(): EndpointState
      reads this
    {
      EndpointState(state, handler, timeout, callback)
    }

    constructor ()
      ensures View() == Created()
    {
      state, handler, timeout, callback := Open, Polling, 0, Idle;
    }

    method SetState(c: Channel)
      modifies this`state
      ensures state == c
    {
      state := c;
    }

    /** OnMessage: the read of the state and the write are separate steps. */
    method MoveCallback()
      requires CanHappen(View(), CallbackMoves)
      modifies this
      ensures View() == Happens(old(View()), CallbackMoves)
    {
      match callback {
        case Parsed(message) =>
          callback := Idle;
          if state == Greeted {
            var tag := Protocol.GetMessageType(message);
            if tag.Err? {
              callback := Escaped;
            } else if tag.value == Protocol.WELCOME {
              var welcome := Protocol.Decode(Protocol.WelcomeKind, message);
              callback := if welcome.Ok? then Accepting(message) else Escaped;
            } else if tag.value == Protocol.ABORT {
              var abort := Protocol.Decode(Protocol.AbortKind, message);
              callback := if abort.Ok? then Idle else Escaped;
            }
          }
        case Accepting(_) =>
          SetState(Registered);
          callback := Idle;
      }
    }

    method MoveHandler(delivered: bool)
      requires CanHappen(View(), HandlerMoves(delivered))
      modifies this
      ensures View() == Happens(old(View()), HandlerMoves(delivered))
    {
      match handler {
        case Polling =>
          match state {
            case Open =>
            case Connected => handler := SendingHello;
            case Greeted =>
            case Registered =>
              if timeout == 30 {
                handler := SendingPing;
              } else {
                timeout := timeout + 1;
              }
            case Disconnected => handler := Left;
          }
        case SendingHello => handler := Greeting(!delivered);
        case Greeting(failed) =>
          SetState(Greeted);
          handler := if failed then Left else Polling;
        case SendingPing =>
          timeout := 0;
          handler := if delivered then Polling else Left;
      }
    }

    method Perform(e: Event)
      requires CanHappen(View(), e)
      modifies this
      ensures View() == Happens(old(View()), e)
    {
      match e {
        case OnOpen => SetState(Connected);
        case OnCloseOrFail => SetState(Disconnected);
        case OnMessage(message) => callback := if message.Some? then Parsed(message.value) else Escaped;
        case CallbackMoves => MoveCallback();
        case HandlerMoves(delivered) => MoveHandler(delivered);
      }
    }

    /** The endpoint under any interleaving of its two threads. */
    method Interleave(es: seq<Event>)
      requires View() == Created() && History(es, |es|)
      modifies this
      ensures View() == After(es, |es|)
    {
      for i := 0 to |es|
        invariant View() == After(es, i)
      {
        HistoryAt(es, i);
        Perform(es[i]);
      }
    }

    /** The loop of Handler, against the states its polls observe and what the websocket
        reports in each iteration; it stops early only on a send error or Disconnected. */
    static method Handler(observed: seq<Channel>, delivered: seq<bool>)
      returns (hellos: nat, pings: nat, timeout: nat, used: nat, left: bool)
      requires |observed| == |delivered|
      ensures used <= |observed| && (used < |observed| ==> left)
      ensures pings == Occurrences(observed[..used], Registered) / 31
      ensures timeout == Occurrences(observed[..used], Registered) % 31
      ensures hellos == Occurrences(observed[..used], Connected)
      ensures forall k: nat :: k + 1 < used ==> !Ends(observed, delivered, k)
      ensures left <==> used > 0 && Ends(observed, delivered, used - 1)
    {
      hellos, pings, timeout, used, left := 0, 0, 0, 0, false;
      while used < |observed| && !left
        invariant used <= |observed|
        invariant pings == Occurrences(observed[..used], Registered) / 31
        invariant timeout == Occurrences(observed[..used], Registered) % 31
        invariant hellos == Occurrences(observed[..used], Connected)
        invariant forall k: nat :: k + 1 < used ==> !Ends(observed, delivered, k)
        invariant left <==> used > 0 && Ends(observed, delivered, used - 1)
        decreases |observed| - used, !left
      {
        assert observed[..used + 1][..used] == observed[..used];
        var failed := false;
        match observed[used] {
          case Open =>
          case Greeted =>
          case Connected =>
            hellos := hellos + 1;
            failed := !delivered[used];
          case Registered =>
            if timeout == 30 {
              pings := pings + 1;
              failed := !delivered[used];
              timeout := 0;
            } else {
              timeout := timeout + 1;
            }
          case Disconnected =>
            left := true;
        }
        used := used + 1;
        left := left || failed;
      }
    }
  }

  lemma {:induction false} HistoryAt(es: seq<Event>, i: nat)
    requires i < |es| && History(es, |es|)
    ensures CanHappen(After(es, i), es[i])
  {
    HistoryUpTo(es, i + 1, |es|);
  }

  lemma {:induction false} HistoryUpTo(es: seq<Event>, i: nat, j: nat)
    requires i <= j <= |es| && History(es, j)
    ensures History(es, i)
  {
    if i < j {
      HistoryUpTo(es, i, j - 1);
    }
  }
}
