# vuex-listener: a verified model of the `Listener` multiplexer

vuex-listener lets Vue components listen to a Vuex store by event name. Its
core is the class `Listener` in `src/plugin.ts`. It sits between the store's
two subscription streams and any number of listeners:

- `store.subscribe` delivers committed mutations;
- `store.subscribeAction` delivers the before and after phases of actions.

The class keeps three registries. Each maps an event name to the ordered
list of listener functions added under it: mutation, before-action and
after-action. The mutation stream is subscribed lazily, once, by the first
`addMutationListener`. The action stream is subscribed once by the first
`addBeforeActionListener` or `addAfterActionListener`. Each add appends the
listener and returns a closure. Calling that closure filters every entry
identity-equal to the listener out of that key's list.

The model is in two modules:

- `Plugin` (`plugin.dfy`) holds the class `Plugin.Listener`. It has:
  - three `map<string, seq<L>>` fields for the registries;
  - two `bool` guards that stand for the `@Once` decorator;
  - ghost counters of the `subscribe` and `subscribeAction` calls the store receives.
  
  A listener is a value of the type parameter `L`. Equality on `L` stands for
  JavaScript identity (`!==`). The three subscriber functions built by
  `createSubscriber` are one method, `Add`, with a `Kind` argument. The
  closure it returns is an `Unsubscriber` value that records the kind, the
  key and the listener. Calling that closure is the method `Unsubscribe`.
  The store's delivery of an event to the three handler callbacks is one
  read-only method, `OnEvent`. It returns the trace of calls
  `listener(payload, state)` it makes, in order. Pure functions (`Without`,
  `Appended`, `Invocations`, `Handled`) specify these methods, and lemmas
  state the properties of those functions.
- `PluginScenarios` (`scenarios.dfy`) restates the repository's test cases as
  client methods. Each one is proved from the contracts of `Plugin.Listener`
  alone.

The registries are plain `{}` objects. Such an object inherits the
properties of `Object.prototype` (`constructor`, `toString`, `valueOf`,
`hasOwnProperty`, `__proto__`, ...), so reading one of those names from a
registry gives a function or an object, never `undefined`. The model keeps
these names in the set `Inherited` and an `Outcome` that is either a
returned value or `ThrewTypeError`:
- an add under an inherited name makes its subscription (`src/plugin.ts:72`),
  skips the creation of the sequence (line 76), and throws at `push`
  (line 80), storing nothing;
- an event whose type is an inherited name that no listener was added under
  throws at `forEach` in the handler (lines 48, 57 and 61).

The object invariant `Valid()` says the following:
- each upstream subscription was made at most once;
- a registry of a stream has a key only once that stream is subscribed;
- no registry has an own key that is an inherited name.

So nothing subscribes to the store before the first add, and events
delivered before then reach no one. A stream can be subscribed with empty
registries, after an add under an inherited name threw.

The code checks neither the event name nor the listener, so `Add` accepts
any key and any listener. Unsubscribing filters out every identity-equal
entry (`src/plugin.ts:84`). `Without` does the same, and `DuplicateScenario`
shows it.

## Model

| member | source | states |
|---|---|---|
| `Plugin.Listener.constructor` | src/plugin.ts:30-42 | All three registries start empty, neither upstream subscription is made, and the store has received zero `subscribe`/`subscribeAction` calls; the invariant holds. |
| `Plugin.Listener.SubscribeToMutations` | src/plugin.ts:44-50 | Afterwards the mutation stream is subscribed; the store's `subscribe` call count rises by one only if it was not subscribed before (`@Once`). |
| `Plugin.Listener.SubscribeToActions` | src/plugin.ts:52-64 | Afterwards the action stream is subscribed; `subscribeAction` is called only on the first call, and one call serves both the before and the after registry. |
| `Plugin.Listener.Append` | src/plugin.ts:75-80 | Registry `kind` becomes `Appended` of its old value (key created empty if absent, then `listener` pushed); the other two registries are unchanged. `Add` calls it only for a key that is not an inherited name. |
| `Plugin.Listener.Add` | src/plugin.ts:69-81 | Subscribes the kind's stream lazily, then appends. It throws `TypeError` exactly when `key` is an inherited name; then every registry is unchanged. Otherwise registry `kind` becomes `Appended` of its old value, the other registries are unchanged, and the result is the handle for `(kind, key, listener)`. In both cases the subscription is made. Each subscription count rises by one only on the first add to its stream and stays at most 1; before and after adds share the action count. The invariant is kept. |
| `Plugin.Listener.Unsubscribe` | src/plugin.ts:83-85 | `registry[key]` is replaced by `Without(registry[key], listener)`. The key stays, possibly mapped to `[]`. The other keys and registries, and both subscriptions, are unchanged. The invariant is kept. |
| `Plugin.Listener.OnEvent` | src/plugin.ts:46-61 | A stream not yet subscribed observes nothing. Once it is subscribed, the outcome is `Handled` of the registry. It throws `TypeError` exactly when the type is an inherited name with no listener added under it. Otherwise the trace is `Invocations(Lookup(registry, type), payload, state)`: empty when the key is absent, otherwise each listener of the key's current sequence once per entry, in order, with `(payload, state)`. |
| `Plugin.Handled` | src/plugin.ts:47-48 | One handler call throws exactly when the type is not an own key of the registry and is an inherited name. When it returns, its trace calls the key's listeners in order, or none when the key is absent. |
| `Plugin.Appended` | src/plugin.ts:75-80 | After a push, the keys are the old keys plus `key`. `key` maps to its old sequence (or `[]`) followed by the listener. Every other key keeps its sequence. |
| `Plugin.Without` | src/plugin.ts:84 | `filter(l => l !== listener)`: the multiset of the result is the input's with every occurrence of `listener` removed and every other listener kept with its multiplicity. |
| `Plugin.WithoutAppend` | src/plugin.ts:84 | Filtering distributes over concatenation, so the remaining listeners keep their relative order. |
| `Plugin.WithoutAbsent` | src/plugin.ts:84 | Unsubscribing a listener that is not registered under the key leaves its sequence unchanged. |
| `Plugin.WithoutOnly` | src/plugin.ts:80-84 | If every entry of a key is the same function, however many times it was added, unsubscribing it leaves the key empty. |
| `Plugin.WithoutIdempotent` | src/plugin.ts:83-85 | Calling the same unsubscribe handle twice gives the same sequence as calling it once. |
| `Plugin.UnsubscribeUndoesAdd` | src/plugin.ts:75-85 | An add of a listener not yet under the key, followed by its unsubscribe, restores the key's sequence. |
| `Plugin.UnsubscribeFirst` | src/plugin.ts:83-85 | Unsubscribing the first listener of a key leaves exactly the listeners added after it, when none of them is the same function. |
| `Plugin.UnsubscribeKeepsLater` | src/plugin.ts:80-84 | A listener added after `l` stays last when `l` is unsubscribed. |
| `Plugin.Invocations` | src/plugin.ts:48 | `forEach(listener => listener(payload, state))`: one call per entry, the i-th call going to the i-th listener, each with the event's payload and state. |
| `Plugin.CalledInvocations` | src/plugin.ts:48 | The listeners a dispatch calls, read off its trace, are exactly the registered sequence, in order and with multiplicities. |
| `Plugin.FiresAfterUnsubscribe` | src/plugin.test.ts:189-201 | After `l` is unsubscribed, an event of its key calls a listener `x` iff `x` is registered and is not `l`. |
| `PluginScenarios.UnsubscribeScenario` | src/plugin.test.ts:141-204 | Two listeners under one key both fire, in add order. After the first one's handle is called, only the second fires. |
| `PluginScenarios.RepeatedUnsubscribeScenario` | src/plugin.ts:83-85 | Calling a handle a second time changes nothing: the same single remaining listener fires after both calls. |
| `PluginScenarios.LazinessScenario` | src/plugin.test.ts:206-246 | Before any add, the store has received no `subscribe` and no `subscribeAction` call, and a mutation and both action phases reach no one. After one add per registry it has received exactly one of each, and a mutation and both action phases of another type call nothing. |
| `PluginScenarios.InheritedKeyScenario` | src/plugin.ts:69-81 | An add under an inherited name throws `TypeError` after subscribing its stream. Then an event of an inherited type throws in the handler, and an event of an ordinary type with no listeners calls nothing. |
| `PluginScenarios.DuplicateScenario` | src/plugin.ts:80-84 | The same function added twice under a key is called twice per event, and its first handle removes both entries. |
| `PluginScenarios.OrderScenario` | src/plugin.test.ts:86-89 | Two successive mutations reach the listener in delivery order, each with its own payload and state. |
| `PluginScenarios.SeparateRegistriesScenario` | src/plugin.ts:55-62 | Each phase consults only its own registry. A before-action listener is not called by the after phase or by a mutation of the same name. |

## Left out

- `VuexListener.install` and its Vue mixin (`src/plugin.ts:90-113`) are not part of this model. They are framework glue that hands one `Listener` down the component tree.
- `src/index.d.ts` is not part of this model. It only declares types.
- The store is not modelled. Its `subscribe`/`subscribeAction` calls are ghost counters. `OnEvent` stands for the store calling a registered handler.
- Dispatch, commit, `async`/`await` and the `@Once` decorator's own mechanism belong to external libraries. `@Once` is an explicit boolean guard.
- Listener bodies are not modelled. A call is an entry in the returned trace. A listener that throws would skip the rest of the batch in the source; the model does not capture that.
- `Plugin.Listener.OnEvent` iterates over the key's sequence as it stands when the event arrives. This is the same snapshot that `forEach` iterates over in the source. Adds or removes made by a listener during that same dispatch are not modelled, because listeners do not run in the model.
- `Plugin.Listener.Unsubscribe` requires the handle's key to be present in its registry. This stands for the source's non-null assertion (`!`) at `src/plugin.ts:84`. An `Add` that returns a handle has created that key, and no operation removes a key. The model does not tie a handle to the `Add` call that produced it: a handle is a plain value, so two adds of the same function under the same key give equal handles. They also behave the same in the source.
- `Inherited` holds the properties that ECMAScript defines on `Object.prototype`. Properties that a host or a library adds to `Object.prototype` are not modelled.
- Payloads and states are opaque type parameters. Their shapes belong to the store.
