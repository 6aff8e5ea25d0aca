/**
 The two-way pointers between sessions and transports, for any number of both. A session
 is present in transportOf when its transport_ is not null, a transport in handlerOf when
 its handler_ is not null.
 */
module Attachment {
  import opened Faults

  datatype Links<!S, !T> = Links(transportOf: map<S, T>, handlerOf: map<T, S>)

  datatype LinkEffect<!S, !T> = LinkEffect(links: Links<S, T>, outcome: Outcome)

  /** Transport::Attach stores the handler before OnAttach can throw. */
  function Attach<S(==), T(==)>(l: Links<S, T>, t: T, s: S): LinkEffect<S, T> {
    if t in l.handlerOf then LinkEffect(l, Threw(LogicFault))
    else
      var stored := l.(handlerOf := l.handlerOf[t := s]);
      if s in l.transportOf then LinkEffect(stored, Threw(LogicFault))
      else LinkEffect(stored.(transportOf := l.transportOf[s := t]), Done)
  }

  /** Transport::Detach calls OnDetach before it resets the handler. */
  function Detach<S(==), T(==)>(l: Links<S, T>, t: T): LinkEffect<S, T> {
    if t !in l.handlerOf then LinkEffect(l, Threw(LogicFault))
    else
      var s := l.handlerOf[t];
      if s !in l.transportOf then LinkEffect(l, Threw(LogicFault))
      else LinkEffect(Links(l.transportOf - {s}, l.handlerOf - {t}), Done)
  }

  datatype Command<S, T> = AttachTo(t: T, s: S) | DetachFrom(t: T)

  function Apply<S(==), T(==)>(l: Links<S, T>, c: Command<S, T>): LinkEffect<S, T> {
    match c
    case AttachTo(t, s) => Attach(l, t, s)
    case DetachFrom(t) => Detach(l, t)
  }

  function ApplyAll<S(==), T(==)>(cs: seq<Command<S, T>>): Links<S, T> {
    if cs == [] then Links(map[], map[])
    else Apply(ApplyAll(cs[..|cs| - 1]), cs[|cs| - 1]).links
  }

  /** A session's transport knows the session. */
  ghost predicate Backed<S(!new), T>(l: Links<S, T>) {
    forall s :: s in l.transportOf ==>
      l.transportOf[s] in l.handlerOf && l.handlerOf[l.transportOf[s]] == s
  }

  /** A transport's handler holds exactly that transport. */
  ghost predicate Mutual<S, T(!new)>(l: Links<S, T>) {
    forall t :: t in l.handlerOf ==>
      l.handlerOf[t] in l.transportOf && l.transportOf[l.handlerOf[t]] == t
  }

  lemma {:induction false} AlwaysBacked<S(!new), T(!new)>(cs: seq<Command<S, T>>)
    ensures Backed(ApplyAll(cs))
  {
    if cs != [] {
      AlwaysBacked(cs[..|cs| - 1]);
      BackedStep(ApplyAll(cs[..|cs| - 1]), cs[|cs| - 1]);
    }
  }

  lemma BackedStep<S(!new), T(!new)>(l: Links<S, T>, c: Command<S, T>)
    requires Backed(l)
    ensures Backed(Apply(l, c).links)
  {
  }

  /** After any sequence of attaches and detaches, including those that threw half-way, no
      transport is held by two sessions. */
  lemma NoSharedTransport<S(!new), T(!new)>(cs: seq<Command<S, T>>, a: S, b: S)
    requires a in ApplyAll(cs).transportOf && b in ApplyAll(cs).transportOf
    requires ApplyAll(cs).transportOf[a] == ApplyAll(cs).transportOf[b]
    ensures a == b
  {
    AlwaysBacked(cs);
  }

  /** An attach that stores its handler and then throws. */
  predicate HalfAttach<S(==), T(==)>(l: Links<S, T>, c: Command<S, T>) {
    c.AttachTo? && c.t !in l.handlerOf && c.s in l.transportOf
  }

  /** From agreeing pointers a command leads to agreeing pointers exactly when it is not
      such an attach. */
  lemma MutualUnlessHalfAttached<S(!new), T(!new)>(l: Links<S, T>, c: Command<S, T>)
    requires Backed(l) && Mutual(l)
    ensures Mutual(Apply(l, c).links) <==> !HalfAttach(l, c)
  {
    if HalfAttach(l, c) {
      var after := Attach(l, c.t, c.s).links;
      assert c.t in after.handlerOf && after.handlerOf[c.t] == c.s;
      assert l.transportOf[c.s] in l.handlerOf;
    }
  }

  /** One session attached to two transports: the second attach stops half-way. */
  lemma TwoTransports<S(!new), T(!new)>(a: T, b: T, s: S)
    requires a != b
    ensures var first, both := [AttachTo(a, s)], [AttachTo(a, s), AttachTo(b, s)];
      && Mutual(ApplyAll(first)) && HalfAttach(ApplyAll(first), both[1])
      && ApplyAll(both) == Links(map[s := a], map[a := s, b := s]) && !Mutual(ApplyAll(both))
  {
    var first, both := [AttachTo(a, s)], [AttachTo(a, s), AttachTo(b, s)];
    assert first[..0] == [] && both[..1] == first;
    assert ApplyAll(first) == Links(map[s := a], map[a := s]);
    assert b in ApplyAll(both).handlerOf;
  }

  /** As long as no attach stops half-way, both pointers agree after every command. */
  lemma {:induction false} MutualRun<S(!new), T(!new)>(cs: seq<Command<S, T>>)
    requires forall i :: 0 <= i < |cs| ==> !HalfAttach(ApplyAll(cs[..i]), cs[i])
    ensures Mutual(ApplyAll(cs))
  {
    if cs != [] {
      var front := cs[..|cs| - 1];
      forall i | 0 <= i < |front| ensures !HalfAttach(ApplyAll(front[..i]), front[i]) {
        assert front[..i] == cs[..i];
      }
      MutualRun(front);
      AlwaysBacked(front);
      MutualUnlessHalfAttached(ApplyAll(front), cs[|cs| - 1]);
    }
  }

  /** A first attach makes the two point at each other and touches nobody else. */
  lemma AttachStores<S(!new), T(!new)>(l: Links<S, T>, t: T, s: S)
    ensures var e := Attach(l, t, s);
      && (e.outcome == Done <==> t !in l.handlerOf && s !in l.transportOf)
      && (e.outcome == Done ==>
            e.links == Links(l.transportOf[s := t], l.handlerOf[t := s]))
      && (t in l.handlerOf ==> e.links == l)
  {
  }

  /** One pointer is gone and the others are as before. */
  ghost predicate Without<K(!new), V(!new)>(after: map<K, V>, before: map<K, V>, gone: K) {
    && (forall k :: k in after <==> k in before && k != gone)
    && (forall k :: k in after ==> after[k] == before[k])
  }

  /** Detaching a transport whose handler has one takes away exactly these two pointers. */
  lemma DetachResets<S(!new), T(!new)>(l: Links<S, T>, t: T)
    ensures var e := Detach(l, t);
      && (e.outcome == Done <==> t in l.handlerOf && l.handlerOf[t] in l.transportOf)
      && (e.outcome == Done ==>
            Without(e.links.handlerOf, l.handlerOf, t) && Without(e.links.transportOf, l.transportOf, l.handlerOf[t]))
      && (e.outcome != Done ==> e.links == l)
  {
  }

  /** Detach undoes Attach, and the same two can then be attached again. */
  lemma DetachUndoesAttach<S(!new), T(!new)>(l: Links<S, T>, t: T, s: S)
    requires t !in l.handlerOf && s !in l.transportOf
    ensures Detach(Attach(l, t, s).links, t) == LinkEffect(l, Done)
    ensures Attach(Detach(Attach(l, t, s).links, t).links, t, s) == Attach(l, t, s)
  {
    var both := Attach(l, t, s).links;
    assert both.handlerOf - {t} == l.handlerOf && both.transportOf - {s} == l.transportOf;
  }

  /** In every reachable state whose pointers agree, each attached transport can be detached
      and is then free, and so is its session. */
  lemma {:induction false} DetachFrees<S(!new), T(!new)>(cs: seq<Command<S, T>>, t: T)
    requires forall i :: 0 <= i < |cs| ==> !HalfAttach(ApplyAll(cs[..i]), cs[i])
    requires t in ApplyAll(cs).handlerOf
    ensures var s := ApplyAll(cs).handlerOf[t];
      var after := ApplyAll(cs + [DetachFrom(t)]);
      && t !in after.handlerOf && s !in after.transportOf
      && Attach(after, t, s).outcome == Done
  {
    MutualRun(cs);
    assert (cs + [DetachFrom(t)])[..|cs|] == cs;
  }

  /** A transport whose handler has no transport can be neither attached nor detached. */
  lemma StrandedTransport<S(!new), T(!new)>(l: Links<S, T>, t: T, s: S)
    requires t in l.handlerOf && l.handlerOf[t] !in l.transportOf
    ensures Attach(l, t, s) == LinkEffect(l, Threw(LogicFault))
    ensures Detach(l, t) == LinkEffect(l, Threw(LogicFault))
  {
  }

  /** Detaching the half-attached transport takes the session's real transport away and
      strands that transport. */
  lemma DetachingHalfAttached<S(!new), T(!new)>(l: Links<S, T>, t: T, s: S)
    requires Backed(l) && Mutual(l) && t !in l.handlerOf && s in l.transportOf
    ensures var held := l.transportOf[s];
      var after := Detach(Attach(l, t, s).links, t);
      && after.outcome == Done
      && after.links == Links(l.transportOf - {s}, l.handlerOf)
      && after.links.handlerOf[held] == s && s !in after.links.transportOf
  {
  }
}
