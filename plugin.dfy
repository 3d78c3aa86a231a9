/** A model of the `Listener` class of vuex-listener: a multiplexer that sits
    between a Vuex store's two subscription streams (committed mutations, and
    before/after action events) and any number of listeners keyed by event name.

    Listener functions are opaque closures compared by identity; here a listener
    is a value of the type parameter `L`, whose equality stands for identity.
    Invoking a listener is recorded as an `Invocation` in a trace instead of
    running foreign code. */
module Plugin {

  /** The three registries, one per `add...Listener` operation. */
  datatype Kind = Mutation | BeforeAction | AfterAction

  /** The two upstream subscriptions: `subscribe` for mutations and
      `subscribeAction` for both action phases. */
  datatype Stream = Mutations | Actions

  function StreamOf(kind: Kind): Stream
  {
    if kind == Mutation then Mutations else Actions
  }

  /** One call `listener(payload, state)` made by an upstream handler. */
  datatype Invocation<L, P, S> = Invocation(listener: L, payload: P, state: S)

  /** The unsubscribe closure returned by an add operation: it captures which
      registry, which key and which listener to filter out. */
  datatype Unsubscriber<L> = Unsubscriber(kind: Kind, key: string, listener: L)

  /** How a call into the multiplexer ends: it returns a value, or it throws
      the `TypeError` that JavaScript raises when a non-array is used as one. */
  datatype Outcome<T> = Returned(value: T) | ThrewTypeError

  /** The names of the properties every `{}` inherits from `Object.prototype`
      (section 20.1.3 of ECMA-262, with the legacy accessors of annex B.2.2).
      Reading one of them from a registry that has no own key of that name
      gives a function, or for `__proto__` the prototype object itself, and
      never `undefined`; neither has `push` or `forEach`. */
  const Inherited: set<string> := {
    "constructor", "hasOwnProperty", "isPrototypeOf", "propertyIsEnumerable",
    "toLocaleString", "toString", "valueOf", "__proto__",
    "__defineGetter__", "__defineSetter__", "__lookupGetter__", "__lookupSetter__"
  }

  /** The listeners registered under `key`, or none when the key is absent. */
  function Lookup<L>(registry: map<string, seq<L>>, key: string): seq<L>
  {
    if key in registry then registry[key] else []
  }

  /** The registry after `listener` is pushed under `key`, an empty sequence
      being created first when the key is absent. */
  function Appended<L>(registry: map<string, seq<L>>, key: string, listener: L): (r: map<string, seq<L>>)
    ensures r.Keys == registry.Keys + {key}
    ensures r[key] == Lookup(registry, key) + [listener]
    ensures forall k :: k in registry && k != key ==> r[k] == registry[k]
  {
    var created := if key in registry then registry else registry[key := []];
    created[key := created[key] + [listener]]
  }

  /** `s.filter(x => x !== l)`: every entry identity-equal to `l` is dropped,
      the others are kept with their multiplicities. */
  function Without<L(==)>(s: seq<L>, l: L): (r: seq<L>)
    ensures multiset(r) == multiset(s)[l := 0]
  {
    if s == [] then []
    else
      assert s == [s[0]] + s[1..];
      if s[0] == l then Without(s[1..], l) else [s[0]] + Without(s[1..], l)
  }

  /** Filtering distributes over concatenation: whatever stood before something
      else in the registry still does after an unsubscribe. */
  lemma {:induction false} WithoutAppend<L>(a: seq<L>, b: seq<L>, l: L)
    ensures Without(a + b, l) == Without(a, l) + Without(b, l)
  {
    if a == [] {
      assert a + b == b;
    } else {
      assert (a + b)[1..] == a[1..] + b;
      WithoutAppend(a[1..], b, l);
    }
  }

  /** Unsubscribing a listener that is not registered changes nothing. */
  lemma {:induction false} WithoutAbsent<L>(s: seq<L>, l: L)
    requires l !in s
    ensures Without(s, l) == s
  {
    if s != [] {
      WithoutAbsent(s[1..], l);
      assert s == [s[0]] + s[1..];
    }
  }

  /** A key whose every entry is `l` (one or many registrations of the same
      function) is left empty by unsubscribing `l`. */
  lemma {:induction false} WithoutOnly<L>(s: seq<L>, l: L)
    requires forall i :: 0 <= i < |s| ==> s[i] == l
    ensures Without(s, l) == []
  {
    if s != [] {
      WithoutOnly(s[1..], l);
    }
  }

  /** Calling the same unsubscribe handle twice leaves the registry as once. */
  lemma WithoutIdempotent<L>(s: seq<L>, l: L)
    ensures Without(Without(s, l), l) == Without(s, l)
  {
    assert multiset(Without(s, l))[l] == 0;
    WithoutAbsent(Without(s, l), l);
  }

  /** Unsubscribing undoes an add of a listener that was not yet registered. */
  lemma UnsubscribeUndoesAdd<L>(s: seq<L>, l: L)
    requires l !in s
    ensures Without(s + [l], l) == s
  {
    WithoutAppend(s, [l], l);
    WithoutAbsent(s, l);
    assert Without([l], l) == [];
  }

  /** Unsubscribing the first listener of a key leaves the listeners added
      after it, when none of them is the same function. */
  lemma UnsubscribeFirst<L>(l: L, rest: seq<L>)
    requires l !in rest
    ensures Without([l] + rest, l) == rest
  {
    WithoutAppend([l], rest, l);
    WithoutAbsent(rest, l);
    assert Without([l], l) == [];
  }

  /** Unsubscribing `l` keeps a listener added after it in last place. */
  lemma UnsubscribeKeepsLater<L>(s: seq<L>, l: L, m: L)
    requires m != l
    ensures Without(s + [m], l) == Without(s, l) + [m]
  {
    WithoutAppend(s, [m], l);
    assert Without([m], l) == [m];
  }

  /** `listeners.forEach(listener => listener(payload, state))`: each listener
      is called once per occurrence, in registration order. */
  function Invocations<L, P, S>(listeners: seq<L>, payload: P, state: S): (r: seq<Invocation<L, P, S>>)
    ensures |r| == |listeners|
    ensures forall i :: 0 <= i < |r| ==> r[i] == Invocation(listeners[i], payload, state)
  {
    if listeners == [] then []
    else [Invocation(listeners[0], payload, state)] + Invocations(listeners[1..], payload, state)
  }

  /** The listeners a trace calls, in the order it calls them. */
  function Called<L, P, S>(trace: seq<Invocation<L, P, S>>): seq<L>
  {
    if trace == [] then [] else [trace[0].listener] + Called(trace[1..])
  }

  /** What one upstream handler does for an event of type `eventType`
      (`src/plugin.ts` lines 47-48, 56-57, 60-61): nothing when the registry
      reads `undefined`, the registered listeners in order when it has the
      key, and a `TypeError` when the name is inherited and not registered. */
  function Handled<L, P, S>(registry: map<string, seq<L>>, eventType: string, payload: P, state: S)
    : (r: Outcome<seq<Invocation<L, P, S>>>)
    ensures r.ThrewTypeError? <==> eventType !in registry && eventType in Inherited
    ensures r.Returned? ==> r.value == Invocations(Lookup(registry, eventType), payload, state)
  {
    if eventType in registry then Returned(Invocations(registry[eventType], payload, state))
    else if eventType in Inherited then ThrewTypeError
    else Returned([])
  }

  /** The trace of a dispatch calls exactly the registered listeners, in order
      and with their multiplicities. */
  lemma {:induction false} CalledInvocations<L, P, S>(listeners: seq<L>, payload: P, state: S)
    ensures Called(Invocations(listeners, payload, state)) == listeners
  {
    if listeners != [] {
      var r := Invocations(listeners, payload, state);
      assert r[1..] == Invocations(listeners[1..], payload, state);
      CalledInvocations(listeners[1..], payload, state);
    }
  }

  /** After `l` is unsubscribed, a dispatch calls `x` if and only if `x` was
      registered and is not `l`. */
  lemma FiresAfterUnsubscribe<L, P, S>(listeners: seq<L>, l: L, x: L, payload: P, state: S)
    ensures x in Called(Invocations(Without(listeners, l), payload, state)) <==> x in listeners && x != l
  {
    CalledInvocations(Without(listeners, l), payload, state);
  }

  /** A multiplexer over one store. The store itself is not modelled: the
      upstream subscription calls it would receive are counted in ghost
      fields, and the handlers it would call are `OnEvent`. */
  class Listener<L(==)> {
    var mutationListeners: map<string, seq<L>>
    var beforeActionListeners: map<string, seq<L>>
    var afterActionListeners: map<string, seq<L>>
    /** The `@Once` guards of `subscribeToMutations` and `subscribeToActions`. */
    var mutationSubscribed: bool
    var actionSubscribed: bool
    /** How many times `store.subscribe` and `store.subscribeAction` were called. */
    ghost var subscribeCalls: nat
    ghost var subscribeActionCalls: nat

    function Registry(kind: Kind): map<string, seq<L>>
      reads this`mutationListeners, this`beforeActionListeners, this`afterActionListeners
    {
      match kind
      case Mutation => mutationListeners
      case BeforeAction => beforeActionListeners
      case AfterAction => afterActionListeners
    }

    function Subscribed(stream: Stream): bool
      reads this`mutationSubscribed, this`actionSubscribed
    {
      if stream == Mutations then mutationSubscribed else actionSubscribed
    }

    /** Each upstream subscription is made at most once, and is made before
        any listener is stored in one of its registries; no registry has an
        own key that shadows an inherited property. */
    ghost predicate Valid()
      reads this
    {
      && subscribeCalls == (if mutationSubscribed then 1 else 0)
      && subscribeActionCalls == (if actionSubscribed then 1 else 0)
      && (mutationListeners != map[] ==> mutationSubscribed)
      && (beforeActionListeners != map[] || afterActionListeners != map[] ==> actionSubscribed)
      && mutationListeners.Keys !! Inherited
      && beforeActionListeners.Keys !! Inherited
      && afterActionListeners.Keys !! Inherited
    }

    constructor ()
      ensures Valid()
      ensures forall kind :: Registry(kind) == map[]
      ensures !mutationSubscribed && !actionSubscribed
      ensures subscribeCalls == 0 && subscribeActionCalls == 0
    {
      mutationListeners := map[];
      beforeActionListeners := map[];
      afterActionListeners := map[];
      mutationSubscribed := false;
      actionSubscribed := false;
      subscribeCalls := 0;
      subscribeActionCalls := 0;
    }

    /** `@Once subscribeToMutations`: only the first call reaches the store. */
    method SubscribeToMutations()
      modifies this`mutationSubscribed, this`subscribeCalls
      ensures mutationSubscribed
      ensures subscribeCalls == old(subscribeCalls) + if old(mutationSubscribed) then 0 else 1
    {
      if !mutationSubscribed {
        subscribeCalls := subscribeCalls + 1;
        mutationSubscribed := true;
      }
    }

    /** `@Once subscribeToActions`: one `subscribeAction` call serves both the
        before and the after registry. */
    method SubscribeToActions()
      modifies this`actionSubscribed, this`subscribeActionCalls
      ensures actionSubscribed
      ensures subscribeActionCalls == old(subscribeActionCalls) + if old(actionSubscribed) then 0 else 1
    {
      if !actionSubscribed {
        subscribeActionCalls := subscribeActionCalls + 1;
        actionSubscribed := true;
      }
    }

    /** The registry update of a subscriber: create the key's sequence when
        it is missing, then push `listener` onto it. */
    method Append(kind: Kind, key: string, listener: L)
      modifies this`mutationListeners, this`beforeActionListeners, this`afterActionListeners
      ensures mutationListeners == if kind == Mutation then Appended(old(mutationListeners), key, listener) else old(mutationListeners)
      ensures beforeActionListeners == if kind == BeforeAction then Appended(old(beforeActionListeners), key, listener) else old(beforeActionListeners)
      ensures afterActionListeners == if kind == AfterAction then Appended(old(afterActionListeners), key, listener) else old(afterActionListeners)
    {
      var registry := Registry(kind);
      if key !in registry {
        registry := registry[key := []];
      }
      registry := registry[key := registry[key] + [listener]];
      match kind {
        case Mutation => mutationListeners := registry;
        case BeforeAction => beforeActionListeners := registry;
        case AfterAction => afterActionListeners := registry;
      }
    }

    /** The subscriber made by `createSubscriber` for registry `kind`
        (`addMutationListener`, `addBeforeActionListener`,
        `addAfterActionListener`): subscribe lazily, then append. For a key
        naming an inherited property the registry read is not `undefined`, so
        no sequence is created and `push` throws, after the subscription. */
    method Add(kind: Kind, key: string, listener: L) returns (u: Outcome<Unsubscriber<L>>)
      requires Valid()
      modifies this
      ensures Valid()
      ensures u.ThrewTypeError? <==> key in Inherited
      ensures u.Returned? ==> u.value == Unsubscriber(kind, key, listener)
      ensures Registry(kind) == if key in Inherited then old(Registry(kind)) else Appended(old(Registry(kind)), key, listener)
      ensures kind != Mutation ==> mutationListeners == old(mutationListeners)
      ensures kind != BeforeAction ==> beforeActionListeners == old(beforeActionListeners)
      ensures kind != AfterAction ==> afterActionListeners == old(afterActionListeners)
      ensures mutationSubscribed == (old(mutationSubscribed) || kind == Mutation)
      ensures actionSubscribed == (old(actionSubscribed) || kind != Mutation)
      ensures subscribeCalls == old(subscribeCalls) + if kind == Mutation && !old(mutationSubscribed) then 1 else 0
      ensures subscribeActionCalls == old(subscribeActionCalls) + if kind != Mutation && !old(actionSubscribed) then 1 else 0
      ensures subscribeCalls <= 1 && subscribeActionCalls <= 1
    {
      if kind == Mutation {
        SubscribeToMutations();
      } else {
        SubscribeToActions();
      }
      if key !in Registry(kind) && key in Inherited {
        return ThrewTypeError;
      }
      Append(kind, key, listener);
      u := Returned(Unsubscriber(kind, key, listener));
    }

    /** Calling the closure returned by `Add`: replace the key's sequence with
        its entries that are not `u.listener`. The key stays, possibly with an
        empty sequence, and the upstream subscriptions stay. */
    method Unsubscribe(u: Unsubscriber<L>)
      requires Valid()
      requires u.key in Registry(u.kind)
      modifies this`mutationListeners, this`beforeActionListeners, this`afterActionListeners
      ensures Valid()
      ensures u.key in Registry(u.kind)
      ensures Registry(u.kind) == old(Registry(u.kind))[u.key := Without(old(Registry(u.kind))[u.key], u.listener)]
      ensures u.kind != Mutation ==> mutationListeners == old(mutationListeners)
      ensures u.kind != BeforeAction ==> beforeActionListeners == old(beforeActionListeners)
      ensures u.kind != AfterAction ==> afterActionListeners == old(afterActionListeners)
    {
      var registry := Registry(u.kind);
      registry := registry[u.key := Without(registry[u.key], u.listener)];
      match u.kind {
        case Mutation => mutationListeners := registry;
        case BeforeAction => beforeActionListeners := registry;
        case AfterAction => afterActionListeners := registry;
      }
    }

    /** The store delivering an event of registry `kind`: before the stream
        is subscribed there is no handler and nothing happens; afterwards the
        handler (the `subscribe` callback, or the `before`/`after` callback of
        `subscribeAction`) calls every listener registered under `eventType`
        with the payload and the state. */
    method OnEvent<P, S>(kind: Kind, eventType: string, payload: P, state: S)
      returns (r: Outcome<seq<Invocation<L, P, S>>>)
      requires Valid()
      ensures r == if Subscribed(StreamOf(kind)) then Handled(Registry(kind), eventType, payload, state) else Returned([])
      ensures r.ThrewTypeError? <==> Subscribed(StreamOf(kind)) && eventType !in Registry(kind) && eventType in Inherited
      ensures r.Returned? ==> r.value == Invocations(Lookup(Registry(kind), eventType), payload, state)
    {
      if !Subscribed(StreamOf(kind)) {
        return Returned([]);
      }
      var registry := Registry(kind);
      if eventType !in registry {
        if eventType in Inherited {
          return ThrewTypeError;
        }
        return Returned([]);
      }
      var snapshot := registry[eventType];
      var trace := [];
      var i := 0;
      while i < |snapshot|
        invariant 0 <= i <= |snapshot|
        invariant |trace| == i
        invariant forall j :: 0 <= j < i ==> trace[j] == Invocation(snapshot[j], payload, state)
      {
        trace := trace + [Invocation(snapshot[i], payload, state)];
        i := i + 1;
      }
      assert trace == Invocations(snapshot, payload, state);
      r := Returned(trace);
    }
  }
}
