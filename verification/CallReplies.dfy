/** The replies on the wire are the in-order image of the calls the session could answer. */
module CallReplies {
  import opened Faults
  import opened JsonValues
  import opened Promises
  import opened SessionModel
  import opened SessionMoves

  /** The RESULT and ERROR messages of a wire log, in order. */
  function Replies(wire: seq<seq<Json>>): seq<seq<Json>> {
    if wire == [] then []
    else Replies(Front(wire)) + if IsReply(Last(wire)) then [Last(wire)] else []
  }

  /** The function a schedule registered last under a name. */
  function LatestRegistration(ls: seq<Label>, name: string): Option<Operation> {
    if ls == [] then None
    else if Last(ls).Register? && Last(ls).name == name then Some(Last(ls).fn)
    else LatestRegistration(Front(ls), name)
  }

  predicate IsCall(l: Label) {
    l.Receive? && l.fields != [] && MessageTag(l.fields) == Ok(CALL)
  }

  /** The reply owed to a call: none when the registered function throws. */
  function Answer(call: CallRequest, fn: Option<Operation>): seq<seq<Json>> {
    match fn
    case None => [NoSuchOperationFields(call.requestId)]
    case Some(f) => (
      match f(call.arguments)
      case None => []
      case Some(result) => [ResultFields(call.requestId, result)])
  }

  /** The operation a label asks for, if it is a well-formed call. */
  function CalledName(l: Label): Option<string> {
    if IsCall(l) && ReadCall(l.fields).Ok? then Some(ReadCall(l.fields).value.operation) else None
  }

  /** What a label owes: something only for a well-formed call that arrives while attached,
      connected and joined, and whose reply the websocket takes. */
  function Owed(s: State, l: Label, fn: Option<Operation>): (owed: seq<seq<Json>>)
    ensures IsAnswer(owed)
  {
    if CalledName(l).Some? && s.link.Connected() && s.sessionId != 0 && l.delivered
    then Answer(ReadCall(l.fields).value, fn) else []
  }

  function LastOwed(ls: seq<Label>): seq<seq<Json>>
    requires ls != []
  {
    var name := CalledName(Last(ls));
    Owed(Exec(Front(ls)), Last(ls),
         if name.Some? then LatestRegistration(Front(ls), name.value) else None)
  }

  function ExpectedReplies(ls: seq<Label>): seq<seq<Json>> {
    if ls == [] then [] else ExpectedReplies(Front(ls)) + LastOwed(ls)
  }

  function Lookup(operations: map<string, Operation>, name: string): Option<Operation> {
    if name in operations then Some(operations[name]) else None
  }

  lemma RegistryMove(s: State, l: Label, t: State, name: string)
    requires Moves(s, l, t)
    ensures Lookup(t.operations, name)
         == if l.Register? && l.name == name then Some(l.fn) else Lookup(s.operations, name)
  {
  }

  /** operations_ always holds the latest registration of every name. */
  lemma {:induction false} RegistryIsLatest(ls: seq<Label>, name: string)
    requires Run(ls)
    ensures Lookup(Exec(ls).operations, name) == LatestRegistration(ls, name)
  {
    if ls != [] {
      LastMoves(ls);
      RegistryIsLatest(Front(ls), name);
      RegistryMove(Exec(Front(ls)), Last(ls), Exec(ls), name);
    }
  }

  lemma RepliesSnoc(wire: seq<seq<Json>>, m: seq<Json>)
    ensures Replies(wire + [m]) == Replies(wire) + if IsReply(m) then [m] else []
  {
    assert Front(wire + [m]) == wire && Last(wire + [m]) == m;
  }

  lemma CallWire(s: State, l: Label, fn: Option<Operation>)
    requires IsCall(l)
    requires CalledName(l).Some? ==> fn == Lookup(s.operations, CalledName(l).value)
    ensures ProcessCall(s, l.fields, l.delivered).state.wire == s.wire + Owed(s, l, fn)
  {
  }

  lemma CallReply(s: State, l: Label, fn: Option<Operation>)
    requires IsCall(l)
    requires CalledName(l).Some? ==> fn == Lookup(s.operations, CalledName(l).value)
    ensures Replies(ProcessCall(s, l.fields, l.delivered).state.wire) == Replies(s.wire) + Owed(s, l, fn)
  {
    CallWire(s, l, fn);
    RepliesTo(s.wire, Owed(s, l, fn));
  }

  /** At most one message, and that a reply. */
  predicate IsAnswer(owed: seq<seq<Json>>) {
    owed == [] || (|owed| == 1 && IsReply(owed[0]))
  }

  lemma RepliesTo(wire: seq<seq<Json>>, owed: seq<seq<Json>>)
    requires IsAnswer(owed)
    ensures Replies(wire + owed) == Replies(wire) + owed
  {
    if owed == [] {
      assert wire + owed == wire;
    } else {
      assert owed == [owed[0]];
      RepliesSnoc(wire, owed[0]);
    }
  }

  lemma ReplyStep(s: State, l: Label, fn: Option<Operation>)
    requires Enabled(s, l)
    requires CalledName(l).Some? ==> fn == Lookup(s.operations, CalledName(l).value)
    ensures Replies(Step(s, l).wire) == Replies(s.wire) + Owed(s, l, fn)
  {
    if IsCall(l) {
      CallReply(s, l, fn);
    } else {
      OthersSendNoReply(s, l);
    }
  }

  lemma OthersSendNoReply(s: State, l: Label)
    requires Enabled(s, l) && !IsCall(l)
    ensures Replies(Step(s, l).wire) == Replies(s.wire)
  {
    StepMoves(s, l);
    if l.Receive? {
      OnlyCallsSend(s, l);
    } else if l.RunsTask? {
      TaskSendsNoReply(s, Step(s, l));
    } else {
      OthersKeepWire(s, l, Step(s, l));
    }
  }

  lemma OnlyCallsSend(s: State, l: Label)
    requires l.Receive? && !IsCall(l)
    ensures OnMessage(s, l.fields, l.delivered).state.wire == s.wire
  {
  }

  lemma TaskSendsNoReply(s: State, t: State)
    requires TaskMoves(s, t)
    ensures Replies(t.wire) == Replies(s.wire)
  {
    if t.wire != s.wire {
      RepliesSnoc(s.wire, TaskMessage(s.queue[0]));
    }
  }

  lemma OthersKeepWire(s: State, l: Label, t: State)
    requires Moves(s, l, t) && !l.Receive? && !l.RunsTask?
    ensures t.wire == s.wire
  {
  }

  /** For every interleaving of calls, re-registrations, pings and link changes, the
      replies sent are exactly the replies owed, in order. */
  lemma {:induction false} RepliesMatchCalls(ls: seq<Label>)
    requires Run(ls)
    ensures Replies(Exec(ls).wire) == ExpectedReplies(ls)
  {
    if ls != [] {
      var name := CalledName(Last(ls));
      RepliesMatchCalls(Front(ls));
      if name.Some? {
        RegistryIsLatest(Front(ls), name.value);
      }
      ReplyStep(Exec(Front(ls)), Last(ls),
                if name.Some? then LatestRegistration(Front(ls), name.value) else None);
    }
  }

  /** A reply carries the request id of its call: exactly when the id is an int32. */
  lemma ReplyKeepsRequestId(requestId: int, operation: string, arguments: Json, fn: Option<Operation>)
    ensures var fields := [JInt(CALL), JInt(requestId), JString(operation), arguments];
      && ReadCall(fields).Ok?
      && forall reply :: reply in Answer(ReadCall(fields).value, fn) ==>
           (reply[if reply[0] == JInt(RESULT) then 1 else 2] == JInt(requestId)
            <==> -0x8000_0000 <= requestId < 0x8000_0000)
  {
  }
}
