# diagnostics_channel in Dafny

A model of the in-process publish/subscribe registry of `lib/diagnostics_channel.js`:

- **Channels** (`channel.dfy`, module `Channels`). A channel is a named endpoint holding an ordered list of subscribers.
  - It is in one of two states: `Inactive` (no subscriber storage) or `Active(subscribers)` (a non-empty list). These stand in for the source's `Channel` / `ActiveChannel` prototype swap.
  - Subscribing appends to the list and activates the channel.
  - Unsubscribing removes the first equal entry. Removing the last one deactivates the channel.
  - Publishing invokes every subscriber in order with `(data, name)`. An exception from one subscriber is caught and queued for deferred reporting. The remaining subscribers still run.
- **Registry** (`registry.dfy`, module `Registry`). The module-level `channel`, `subscribe`, `unsubscribe` and `hasSubscribers` functions.
  - They look channels up by property key in a map.
  - They keep an explicit reference count per key.
- **Storage channels** (`storage.dfy`, module `Storage`).
  - A `StoreBinding` keeps a save-stack for one store. Entering saves the store's value and installs `build(data)`. Exiting restores the saved value.
  - A `StorageChannel` is `Unbound` or `Bound(bindings)`, with at most one binding per store.
  - Its `Run(data, fn)` enters every binding, runs `fn` and exits every binding, whether `fn` returns or throws.
  - `storageChannel(name)` looks storage channels up by key in a second registry.
- **Shared values** (`values.dfy`, `sequences.dfy`): the value types, `indexOf`, and `splice(i, 1)`.

Modelling choices:
- Subscribers are values compared by equality. Each has an `isFunction` flag (is it callable) and a `failure` (the error it throws when invoked, if any).
- A store is an object with one mutable `current` value.
- The `fn` of a run is a function from the values of the bound stores (as `fn` sees them) to a completion: `Normal(v)` or `Abrupt(e)`.
- A name that is neither a string nor a symbol is `Other(key)`. `key` is the string that JavaScript coerces it to when it is used as a property key. Because of this, `channel(42)` returns the channel registered as `"42"` if one exists, and throws otherwise.

## Model

| member | source | states |
|---|---|---|
| Sequences.FirstIndex | lib/diagnostics_channel.js:36-37 | `indexOf`: -1 exactly when the element is absent; otherwise a position holding it with no earlier occurrence |
| Sequences.RemoveAt | lib/diagnostics_channel.js:39 | `splice(index, 1)`: one shorter; elements before `index` stay in place and later ones shift down by one |
| Sequences.RemoveFirst | lib/diagnostics_channel.js:35-39 | removing the first match: unchanged when absent, exactly one shorter when present |
| Sequences.RemoveFirstMultiset | lib/diagnostics_channel.js:35-39 | removing the first match takes away one occurrence of it and nothing else |
| Sequences.RemoveFirstReinserts | lib/diagnostics_channel.js:35-39 | the list is the result with the removed element put back at its first position, with no copy of it earlier |
| Sequences.RemoveFirstOfAppended | lib/diagnostics_channel.js:30-39 | appending an absent subscriber and then removing it restores the list exactly |
| Channels.Errors | lib/diagnostics_channel.js:56-63 | the queued errors are no more than the subscribers, and none exactly when no subscriber throws |
| Channels.ErrorsOfConcat | lib/diagnostics_channel.js:55-64 | errors are queued subscriber by subscriber, in order: those of a list `a + b` are `a`'s followed by `b`'s |
| Channels.ThrownErrorIsReported | lib/diagnostics_channel.js:56-63 | the error of every throwing subscriber is queued, wherever it stands in the list |
| Channels.Channel.constructor | lib/diagnostics_channel.js:69-72 | a new channel carries its name and is inactive |
| Channels.Channel.HasSubscribers | lib/diagnostics_channel.js:41-52 | true exactly when the subscriber list is non-empty (inactive answers false, active answers true, and an active channel is never empty) |
| Channels.Channel.Subscribe | lib/diagnostics_channel.js:80-84 | a callable is appended after the existing subscribers, so an inactive channel becomes active with exactly `[sub]`; a non-callable is refused with an error and leaves the channel as it was (the active path is lines 30-33) |
| Channels.Channel.SubscribeAsWritten | lib/diagnostics_channel.js:80-84 | as the source does it: the channel becomes active in every case, and gets `[sub]` appended only when `sub` is callable |
| Channels.RefusedSubscribeLeavesEmptyActiveChannel | lib/diagnostics_channel.js:80-84 | subscribing a non-callable to a new channel as written leaves it reporting subscribers while it has none, breaking the channel invariant |
| Channels.Channel.Unsubscribe | lib/diagnostics_channel.js:35-48 | returns true exactly when `sub` was subscribed; removes only the first equal entry, the others keeping their order; on false nothing changes; removing the last entry deactivates the channel (inactive side: lines 86-88) |
| Channels.Channel.Publish | lib/diagnostics_channel.js:54-65 | one invocation per subscriber, the i-th with subscriber i and `(data, name)`, so a thrower does not stop later ones; the deferred errors are exactly the throwers' errors in order; on an inactive channel nothing happens (line 94) |
| Registry.ChannelRegistry.constructor | lib/diagnostics_channel.js:97 | the registry starts empty |
| Registry.ChannelRegistry.Lookup | lib/diagnostics_channel.js:99-112 | returns the registered channel for the name's key whatever the name is; otherwise throws for a non-string, non-symbol name, or registers a fresh inactive channel with count 0; no subscriber list or count changes |
| Registry.ChannelRegistry.Subscribe | lib/diagnostics_channel.js:114-118 | fails exactly when the name cannot be resolved or the subscriber is not callable; raises the name's count whenever the channel was resolved (even if the subscriber is then refused); appends the subscriber on success; other names unaffected |
| Registry.ChannelRegistry.SubscribeRegistered | lib/diagnostics_channel.js:116-117 | for a registered key: the count rises by one and the channel's list gains `sub` exactly when it is callable; other keys unaffected |
| Registry.ChannelRegistry.Unsubscribe | lib/diagnostics_channel.js:120-128 | fails only when the name cannot be resolved; true exactly when `sub` was subscribed; removes the first match; lowers the count only on a successful removal; other names unaffected |
| Registry.ChannelRegistry.UnsubscribeRegistered | lib/diagnostics_channel.js:122-127 | for a registered key: removes the first `sub`, lowers the count only when one was removed; other keys unaffected |
| Registry.ChannelRegistry.HasSubscribers | lib/diagnostics_channel.js:130-139 | false for a key with no channel; otherwise true exactly when that channel's subscriber list is non-empty |
| Registry.SubscribeThenUnsubscribe | lib/diagnostics_channel.js:114-128 | subscribing a new callable by name and then unsubscribing it succeeds both times and leaves every name's subscribers, count and `hasSubscribers` as before |
| Storage.StoreBinding.constructor | lib/diagnostics_channel.js:142-149 | a binding keeps its store, starts with an empty save-stack, and uses the given `build` or the identity |
| Storage.StoreBinding.OnEnter | lib/diagnostics_channel.js:151-154 | pushes the store's prior value and sets the store to `build(data)` |
| Storage.StoreBinding.OnExit | lib/diagnostics_channel.js:156-159 | pops the last saved value and restores it into the store; with an empty stack changes nothing |
| Storage.WithoutStore | lib/diagnostics_channel.js:179-189 | the bindings left after unbinding `store`: none of them binds `store`, and every other binding is kept |
| Storage.WithoutAbsentStore | lib/diagnostics_channel.js:179-180 | unbinding a store that is not bound leaves the bindings unchanged |
| Storage.WithoutUniqueStore | lib/diagnostics_channel.js:182-189 | with at most one binding per store, splicing out the first binding of `store` is the same as removing every binding of it |
| Storage.StorageChannel.constructor | lib/diagnostics_channel.js:222-224 | a new storage channel is unbound |
| Storage.StorageChannel.HasSubscribers | lib/diagnostics_channel.js:165-167 | true exactly when there is at least one binding (false when unbound, lines 232-234) |
| Storage.StorageChannel.IsBoundToStore | lib/diagnostics_channel.js:169-171 | a store can be bound only to a channel that has bindings (the unbound channel answers false, lines 236-238) |
| Storage.StorageChannel.BindStore | lib/diagnostics_channel.js:173-177 | adds a binding exactly when the store was not bound: appended after the existing ones, fresh, with an empty stack and the given or identity `build`; a duplicate returns false and changes nothing; afterwards the store is bound and the channel active (unbound side: lines 240-244) |
| Storage.StorageChannel.UnbindStore | lib/diagnostics_channel.js:179-197 | returns true exactly when the store was bound; afterwards the bindings are the old ones without that store, in order; the last removal unbinds the channel; false changes nothing |
| Storage.StorageChannel.Enter | lib/diagnostics_channel.js:199-203 | every binding pushes its store's prior value and its store holds `build(data)` |
| Storage.StorageChannel.Exit | lib/diagnostics_channel.js:205-209 | every binding with a saved value pops it and restores it into its store; the others change nothing |
| Storage.StorageChannel.Run | lib/diagnostics_channel.js:211-218 | `fn` sees each bound store holding its binding's `build(data)`; the run completes as `fn` does (value or throw); afterwards every bound store and save-stack is exactly as before, also when `fn` throws; unbound, just `fn()` (lines 253-255) |
| Storage.StorageRegistry.constructor | lib/diagnostics_channel.js:258 | the storage registry starts empty |
| Storage.StorageRegistry.Lookup | lib/diagnostics_channel.js:260-273 | returns the registered storage channel for the name's key whatever the name is; otherwise throws for a non-string, non-symbol name, or registers a fresh unbound channel |
| Storage.BoundStoreIsRestoredAfterRun | test/parallel/test-diagnostics-channel-storage-channel.js:25-31 | with a store bound to storage channel "test", the store is undefined before the run, holds `build(input)` inside `fn` (so `fn` returns normally), and is undefined again after |

## Findings

| source | as written | input that shows it | evidently intended | confidence | as-written member | corrected member |
|---|---|---|---|---|---|---|
| lib/diagnostics_channel.js:80-84 | The inactive `subscribe` first switches the channel to the active representation with an empty list, and only then calls the active `subscribe`, whose `validateFunction` throws. | `channel('x').subscribe(42)` on a channel with no subscribers: it throws `ERR_INVALID_ARG_TYPE`, and afterwards `hasSubscribers` is true although the list is empty. | A refused subscriber leaves the channel inactive, keeping `hasSubscribers` equal to "the list is non-empty". | not executed; high | Channels.Channel.SubscribeAsWritten, Channels.RefusedSubscribeLeavesEmptyActiveChannel | Channels.Channel.Subscribe |

The rest of the model (the registry's `subscribe`) uses the corrected `Channels.Channel.Subscribe`; "## Left out" states the one input on which the registry therefore answers differently from the source.

## Left out

- The tracing channel (start/end/asyncEnd/error and its promise and callback paths) and a module-level `bindStore` are not part of this model. `lib/diagnostics_channel.js` neither defines nor exports them. The storage test binds its store through a module-level `bindStore`; `Storage.BoundStoreIsRestoredAfterRun` uses `storageChannel('test').bindStore` instead.
- Weak references and garbage collection are not modelled.
  - Registries hold channels strongly, so a lookup never meets a collected entry.
  - `incRef`/`decRef` are an explicit integer per key. Nothing stops the count from going below zero: a subscriber added with `Channel.subscribe` and removed with the module-level `unsubscribe` lowers it. The native reference-count code is not part of this model.
- Deferred error reporting is not scheduled. `process.nextTick` and `triggerUncaughtException` become the `deferred` sequence that `Publish` returns, in order.
- Subscribers and `fn` do not run code. A subscriber that subscribes or unsubscribes during a publish is not modelled. The source loop reads the live list with no snapshot, so the model does not claim that such a publish is safe. The same holds for nested runs and a `build` that throws: `build` is a total function here.
- The prototype swaps and the `Symbol.hasInstance` overrides (`instanceof`) are not modelled. The tagged `Inactive`/`Active` and `Unbound`/`Bound` states stand in for them.
- `validateFunction` is not modelled. It becomes the `isFunction` flag and an `InvalidArgType` error.
- The storage registry passes the name to a `StorageChannel` constructor that ignores it, so storage channels carry no name.
- `onExit` pops the save-stack with no per-run token (line 158), so runs that interleave instead of nesting are not kept apart. The model runs `fn` to completion between enter and exit, so it has no interleaved runs.
- Registry.ChannelRegistry.Subscribe: it subscribes through the corrected `Channels.Channel.Subscribe` (see Findings), so it departs from the source on one input. Take `subscribe('x', 42)` on a name with no channel. The model leaves channel `'x'` inactive, and `hasSubscribers('x')` then answers false. The source reaches lines 81-83 through lines 115-117, which leave the channel active with an empty list, and `hasSubscribers('x')` answers true through line 138 and lines 50-52. The `Registry.ChannelRegistry.HasSubscribers` row holds for the corrected model only.
