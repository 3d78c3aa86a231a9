/** Client-side scenarios of the multiplexer, each restating a test case of
    the repository's suite over the model: what a caller can conclude from
    the contracts of `Plugin.Listener` alone. */
module PluginScenarios {
  import opened Plugin

  /** Two listeners on the same key fire in the order they were added; after
      the first one's handle is called, only the second keeps firing. */
  method UnsubscribeScenario<L(==), P, S>(kind: Kind, key: string, leaves: L, stays: L, payload: P, state: S)
    returns (first: Outcome<seq<Invocation<L, P, S>>>, second: Outcome<seq<Invocation<L, P, S>>>)
    requires key !in Inherited
    requires leaves != stays
    ensures first == Returned([Invocation(leaves, payload, state), Invocation(stays, payload, state)])
    ensures second == Returned([Invocation(stays, payload, state)])
  {
    var listener := new Listener<L>();
    var unsubscribe := listener.Add(kind, key, leaves);
    assert Lookup(listener.Registry(kind), key) == [leaves];
    var _ := listener.Add(kind, key, stays);
    assert Lookup(listener.Registry(kind), key) == [leaves, stays];
    first := listener.OnEvent(kind, key, payload, state);
    assert first.value == [Invocation(leaves, payload, state), Invocation(stays, payload, state)];
    listener.Unsubscribe(unsubscribe.value);
    UnsubscribeFirst(leaves, [stays]);
    assert [leaves] + [stays] == [leaves, stays];
    assert Lookup(listener.Registry(kind), key) == [stays];
    second := listener.OnEvent(kind, key, payload, state);
    assert second.value == [Invocation(stays, payload, state)];
  }

  /** Calling an unsubscribe handle a second time changes nothing: the other
      listener keeps firing and the removed one stays removed. */
  method RepeatedUnsubscribeScenario<L(==), P, S>(kind: Kind, key: string, leaves: L, stays: L, payload: P, state: S)
    returns (afterOnce: Outcome<seq<Invocation<L, P, S>>>, afterTwice: Outcome<seq<Invocation<L, P, S>>>)
    requires key !in Inherited
    requires leaves != stays
    ensures afterOnce == afterTwice == Returned([Invocation(stays, payload, state)])
  {
    var listener := new Listener<L>();
    var unsubscribe := listener.Add(kind, key, leaves);
    var _ := listener.Add(kind, key, stays);
    listener.Unsubscribe(unsubscribe.value);
    UnsubscribeFirst(leaves, [stays]);
    assert [leaves] + [stays] == [leaves, stays];
    assert Lookup(listener.Registry(kind), key) == [stays];
    afterOnce := listener.OnEvent(kind, key, payload, state);
    assert afterOnce.value == [Invocation(stays, payload, state)];
    listener.Unsubscribe(unsubscribe.value);
    WithoutAbsent([stays], leaves);
    assert Lookup(listener.Registry(kind), key) == [stays];
    afterTwice := listener.OnEvent(kind, key, payload, state);
    assert afterTwice.value == [Invocation(stays, payload, state)];
  }

  /** Nothing subscribes to the store before the first add, and a mutation and
      both phases of an action delivered then are lost. One add per registry
      makes exactly one `subscribe` and one `subscribeAction` call, and events
      of another type still call nothing. */
  method LazinessScenario<L(==), P, S>(listened: string, other: string, before: L, after: L, mutation: L, payload: P, state: S)
    returns (ghost mutationSubscribesBefore: nat, ghost actionSubscribesBefore: nat,
             ghost mutationSubscribesAfter: nat, ghost actionSubscribesAfter: nat,
             early: seq<Outcome<seq<Invocation<L, P, S>>>>, unlistened: seq<Outcome<seq<Invocation<L, P, S>>>>)
    requires listened !in Inherited && other !in Inherited
    requires listened != other
    ensures mutationSubscribesBefore == 0 && actionSubscribesBefore == 0
    ensures mutationSubscribesAfter == 1 && actionSubscribesAfter == 1
    ensures early == [Returned([]), Returned([]), Returned([])]
    ensures unlistened == [Returned([]), Returned([]), Returned([])]
  {
    var listener := new Listener<L>();
    var m := listener.OnEvent(Mutation, other, payload, state);
    var b := listener.OnEvent(BeforeAction, other, payload, state);
    var a := listener.OnEvent(AfterAction, other, payload, state);
    early := [m, b, a];
    mutationSubscribesBefore, actionSubscribesBefore := listener.subscribeCalls, listener.subscribeActionCalls;
    var _ := listener.Add(BeforeAction, listened, before);
    var _ := listener.Add(AfterAction, listened, after);
    var _ := listener.Add(Mutation, listened, mutation);
    mutationSubscribesAfter, actionSubscribesAfter := listener.subscribeCalls, listener.subscribeActionCalls;
    m := listener.OnEvent(Mutation, other, payload, state);
    b := listener.OnEvent(BeforeAction, other, payload, state);
    a := listener.OnEvent(AfterAction, other, payload, state);
    unlistened := [m, b, a];
  }

  /** The same listener added twice under one key is called twice per event,
      and its first handle removes both entries. */
  method DuplicateScenario<L(==), P, S>(kind: Kind, key: string, l: L, payload: P, state: S)
    returns (twice: Outcome<seq<Invocation<L, P, S>>>, afterwards: Outcome<seq<Invocation<L, P, S>>>)
    requires key !in Inherited
    ensures twice == Returned([Invocation(l, payload, state), Invocation(l, payload, state)])
    ensures afterwards == Returned([])
  {
    var listener := new Listener<L>();
    var unsubscribe := listener.Add(kind, key, l);
    var _ := listener.Add(kind, key, l);
    assert Lookup(listener.Registry(kind), key) == [l, l];
    twice := listener.OnEvent(kind, key, payload, state);
    assert twice.value == [Invocation(l, payload, state), Invocation(l, payload, state)];
    listener.Unsubscribe(unsubscribe.value);
    WithoutOnly([l, l], l);
    afterwards := listener.OnEvent(kind, key, payload, state);
  }

  /** Events of successive mutations reach the listener in delivery order,
      each with its own payload and state. */
  method OrderScenario<L(==), P, S>(key: string, l: L, p1: P, s1: S, p2: P, s2: S)
    returns (trace: seq<Invocation<L, P, S>>)
    requires key !in Inherited
    ensures trace == [Invocation(l, p1, s1), Invocation(l, p2, s2)]
  {
    var listener := new Listener<L>();
    var _ := listener.Add(Mutation, key, l);
    var t1 := listener.OnEvent(Mutation, key, p1, s1);
    var t2 := listener.OnEvent(Mutation, key, p2, s2);
    trace := t1.value + t2.value;
  }

  /** Each event consults only its own registry: a before-action listener is
      not called by the after phase or by a mutation of the same name. */
  method SeparateRegistriesScenario<L(==), P, S>(key: string, l: L, payload: P, state: S)
    returns (before: Outcome<seq<Invocation<L, P, S>>>, after: Outcome<seq<Invocation<L, P, S>>>, mutation: Outcome<seq<Invocation<L, P, S>>>)
    requires key !in Inherited
    ensures before == Returned([Invocation(l, payload, state)])
    ensures after == Returned([]) && mutation == Returned([])
  {
    var listener := new Listener<L>();
    var _ := listener.Add(BeforeAction, key, l);
    assert Lookup(listener.Registry(BeforeAction), key) == [l];
    before := listener.OnEvent(BeforeAction, key, payload, state);
    assert before.value == [Invocation(l, payload, state)];
    after := listener.OnEvent(AfterAction, key, payload, state);
    mutation := listener.OnEvent(Mutation, key, payload, state);
  }

  /** A key naming an inherited property (`"constructor"`, `"toString"`, ...)
      breaks the multiplexer: the add subscribes the stream and then throws
      without storing the listener, and once the stream is subscribed an event
      of such a type throws in the handler, while an event of an ordinary
      unregistered type calls nothing. */
  method InheritedKeyScenario<L(==), P, S>(kind: Kind, inherited: string, plain: string, l: L, payload: P, state: S)
    returns (added: Outcome<Unsubscriber<L>>, subscribed: bool,
             inheritedEvent: Outcome<seq<Invocation<L, P, S>>>, plainEvent: Outcome<seq<Invocation<L, P, S>>>)
    requires inherited in Inherited && plain !in Inherited
    ensures added == ThrewTypeError && subscribed
    ensures inheritedEvent == ThrewTypeError
    ensures plainEvent == Returned([])
  {
    var listener := new Listener<L>();
    added := listener.Add(kind, inherited, l);
    subscribed := listener.Subscribed(StreamOf(kind));
    inheritedEvent := listener.OnEvent(kind, inherited, payload, state);
    plainEvent := listener.OnEvent(kind, plain, payload, state);
  }
}
