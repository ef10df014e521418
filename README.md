# type-cacheable, modelled in Dafny

type-cacheable is a TypeScript library of method decorators that memoise asynchronous methods.
The decorators are `Cacheable`, `CacheClear` and `CacheUpdate`, in two generations: the
`packages/core` package and the older root `lib/` package. Each decorated call makes a
per-call decision:

- run the method directly (disabled, `noop`, or no client); or
- derive a key, a TTL, clients and a strategy by precedence rules, then read, write or clear a
  pluggable key-value store (`CacheClient`).

This project models that orchestration core:

- key derivation: literal, builder or digest keys, `hash:key` prefixing, element-wise prefixing
  of list keys, and the root package's `getSeparatedKeys`;
- the literal-or-builder resolvers;
- the default read-through, clear and update strategies and the no-op ones;
- the decorators of both generations;
- the three configuration singletons;
- `fieldify` and `isScalar`;
- the in-memory `MockAdapter` store of the test utilities.

`MockAdapter` is the concrete store. It is a class whose `cache` dictionary its methods update
in place. Per-operation failure flags make `get`, `set`, `del` and `keys` reject, as the
repository's tests do with throwing mocks.

Modelling choices:

- `await` is sequential execution. `Promise.all` runs its members in order.
- A method is a function from receiver and arguments to an outcome (`Ok` value or `Err`
  rejection).
- The digest (MD5 over `serialize-javascript` output) is a parameter: a deterministic function
  of the call map `{args, methodName, context}`.
- `serializeValue` is a parameter of `Fieldify`.
- Every store call is recorded in a ghost trace of events, together with each run of the
  method. Contracts state the order of calls, as well as the results and the store states.

Where the repository's prose and tests disagree with its code, the model follows the code:

- `packages/core/lib/decorators/CacheClear.ts` clears before it runs the method and swallows
  clearing errors. A failing method therefore does not prevent the clear. The root package's
  `CacheClear` runs the method first and deletes only after it succeeds.
- `DefaultClearStrategy` never reads `hashesToClear` and never calls `delHash`. The decorator
  still sets the field (`CoreCacheClear.ClearKeys`), but nothing clears a whole hash.
- `DefaultStrategy` writes even when the method rejects, storing `undefined`, and then rejects.
- In `cache-update.ts`, when `cacheKeysToClear` and `cacheKey` are both omitted (and no builder
  hash key is given), the clear key falls back to the same digest key as the update. The clear
  then deletes the value the update just wrote. `CoreCacheUpdate.OmittedKeysClearUpdatedKey`
  and `CoreCacheUpdate.OmittedKeysUndoTheWrite` prove this.
- `lib/decorators/Cacheable.ts` and `lib/decorators/CacheField.ts` call a `getFinalKey` that
  `lib/util/getCacheKey.ts` does not define. The model uses the composition written out in
  `lib/decorators/CacheClear.ts:33-37` (`LegacyKey.FinalKey`).
- Their `getTTL` (`lib/util/getTTL.ts`) is not part of this model. The literal-or-builder rule
  of `packages/core/lib/util/get-ttl.ts` stands in for it.

## Model

| member | source | states |
|---|---|---|
| Builders.Resolve | packages/core/lib/util/get-ttl.ts:19-21 | a literal spec is returned unchanged; a builder's result is returned, called with exactly the given args, context and return value |
| Resolvers.GetTTL | packages/core/lib/util/get-ttl.ts:12-22 | a literal TTL comes back unchanged; a builder is called with `(args, context)` and its result returned |
| Resolvers.GetCacheStrategy | packages/core/lib/util/getCacheStrategy.ts:13-23 | a literal strategy is the same instance; a builder gets `(args, context)` only and its instance is returned |
| Resolvers.GetCacheClearStrategy | packages/core/lib/util/get-cache-clear-strategy.ts:13-23 | as GetCacheStrategy; no return value reaches the builder |
| Resolvers.GetCacheUpdateStrategy | packages/core/lib/util/get-cache-update-strategy.ts:13-21 | a literal is returned as is; a builder gets `(args, context, returnValue)` in that order |
| Resolvers.GetCacheClient | packages/core/lib/util/get-cache-client.ts:12-21 | a literal client is returned as is; a builder gets `(args, context)` |
| Resolvers.GetCacheClientForCacheable | packages/core/lib/util/getCacheClient.ts:12-18 | the same rule for the twin file |
| Resolvers.CacheClientTwinsAgree | packages/core/lib/util/getCacheClient.ts:12-18 | the two `getCacheClient` files agree on every input |
| Resolvers.DetermineOp | lib/util/determineOp.ts:3-7 | a boolean literal is returned; a builder's result is returned, called with the given args and context |
| CacheKey.ExtractKey | packages/core/lib/util/getCacheKey.ts:18-27 | an absent key is `''`; a literal (string or list) is returned unchanged; a builder is called with `(args, context, returnValue)` |
| CacheKey.GetCacheKey | packages/core/lib/util/getCacheKey.ts:41-64 | a truthy key is the extracted key, with no digest; an absent or empty one is the digest of `{args, methodName, context}`, which is 32 hex digits for an MD5-shaped digest |
| CacheKey.GetFinalKey | packages/core/lib/util/getCacheKey.ts:66-82 | a falsy hash key leaves the cache key as is; a string key becomes `hash:key`; a list key keeps its length and order, with each element prefixed independently; the hash key is extracted with the same inputs and never digested |
| CacheKey.NoHashKeyLeavesKey | packages/core/lib/util/getCacheKey.ts:74-81 | without a hash key the final key is exactly the cache key |
| CacheKey.HashPrefixSplitsBack | packages/core/lib/util/getCacheKey.ts:81 | for any key and hash key options (literal, builder or digest) whose hash key resolves to a non-empty string without `:`, every name of the final key splits at its first `:` into that hash key and the matching name of the cache key |
| MockStore.PutThenLookup | packages/core/test/test-utils.ts:15-23 | after storing a value under a name, reading that name gives the value and other names are unaffected |
| MockStore.PutOverwrites | packages/core/test/test-utils.ts:20 | a second store under a name replaces the first |
| MockStore.RemoveAllRemoves | packages/core/test/test-utils.ts:25-35 | deleting a list of names removes exactly those names and keeps the dictionary well formed |
| MockStore.MatchingKeysExact | packages/core/test/test-utils.ts:37-39 | `keys(p)` lists exactly the stored names containing `p`, without repetition |
| MockStore.EmptyPatternMatchesAll | packages/core/test/test-utils.ts:37-39 | `keys('')` lists every stored name, in order |
| MockStore.IncludesIsSubstring | packages/core/test/test-utils.ts:38 | `includes` holds exactly when the pattern occurs at some position |
| MockStore.KeysOfAllExact | packages/core/test/test-utils.ts:45-50 | the names `delHash` collects are exactly the stored names matching one of the patterns |
| MockStore.DelHashSurvivors | packages/core/test/test-utils.ts:45-50 | after `delHash` a name survives exactly when it was stored and matches none of the patterns |
| MockStore.RemoveAllAppend | packages/core/test/test-utils.ts:29-31 | deleting one list and then another is deleting their concatenation |
| MockStore.MockAdapter.constructor | packages/core/test/test-utils.ts:3-13 | an empty cache; every operation succeeds |
| MockStore.MockAdapter.Faulty | packages/core/test/decorators/cache-update.test.ts:20-26 | an empty cache whose chosen operations reject |
| MockStore.MockAdapter.Get | packages/core/test/test-utils.ts:15-17 | resolves to the value under the key's name (undefined when absent), or rejects when `get` fails |
| MockStore.MockAdapter.Set | packages/core/test/test-utils.ts:19-23 | stores the value and resolves to it, or rejects and changes nothing |
| MockStore.MockAdapter.Del | packages/core/test/test-utils.ts:25-35 | a string deletes that name, a list each listed name (none for an empty list); resolves to undefined |
| MockStore.MockAdapter.Keys | packages/core/test/test-utils.ts:37-39 | resolves to the stored names containing the pattern, in insertion order |
| MockStore.MockAdapter.DelHash | packages/core/test/test-utils.ts:45-50 | reads `keys` for each pattern (a string or each list element), then deletes every match |
| MockStore.MockAdapter.ListEach | packages/core/test/test-utils.ts:46-47 | one `keys` call per pattern, in order, each listing the matches in the same state; it fails exactly when there is a pattern and `keys` rejects |
| MockStore.MockAdapter.DeleteEach | packages/core/test/test-utils.ts:47-48 | one `del` per list of matches; on success exactly the concatenated matches are gone, and a rejection changes nothing |
| StrategyContexts.SetWithFallback | packages/core/lib/strategies/DefaultStrategy.ts:74-90 | one primary `set`; when it rejects, one fallback `set` with the same key, value and TTL; both errors are swallowed; the stores end as WroteThrough says |
| DefaultRead.DefaultStrategy.constructor | packages/core/lib/strategies/DefaultStrategy.ts:4-5 | both pending maps start empty |
| DefaultRead.DefaultStrategy.FindCachedValue | packages/core/lib/strategies/DefaultStrategy.ts:7-25 | a pending request for the key is reused with no new `get`; otherwise one `get`; either way the key's pending entry is gone afterwards |
| DefaultRead.DefaultStrategy.Handle | packages/core/lib/strategies/DefaultStrategy.ts:27-106 | (ReadThrough) a non-nullish primary value is returned with no run and no write; the fallback is read only when the primary `get` rejects; on a miss a pending run is reused, and otherwise the method runs once, its value (undefined on rejection) is written with fallback, and its outcome is returned; no request stays pending |
| DefaultClear.ClearOn | packages/core/lib/strategies/DefaultClearStrategy.ts:6-20 | a plain clear is one `del` of the key as given; a pattern clear calls `keys` for each pattern and then makes one `del` of the concatenated matches; a rejection leaves the store as it was; a builder in place of a client is a TypeError |
| DefaultClear.Handle | packages/core/lib/strategies/DefaultClearStrategy.ts:4-46 | (ClearHandled) resolves to undefined whatever fails; any primary failure repeats the same clear on the fallback; only `keys` and `del` are called |
| DefaultClear.PlainClearNames | packages/core/lib/strategies/DefaultClearStrategy.ts:19 | a plain clear deletes one name for a string key, each element for a list key |
| DefaultClear.PatternClearOfString | packages/core/lib/strategies/DefaultClearStrategy.ts:15 | a pattern clear of a string deletes exactly the list `keys(key)` returns |
| DefaultClear.SingleKeysCall | packages/core/lib/strategies/DefaultClearStrategy.ts:15 | a pattern clear of a string makes exactly one `keys` call, for that string |
| DefaultClear.PatternClearOfList | packages/core/lib/strategies/DefaultClearStrategy.ts:8-13 | a pattern clear of a list deletes the matches of each element, concatenated in order with repeats kept |
| DefaultClear.PatternClearSurvivors | packages/core/lib/strategies/DefaultClearStrategy.ts:6-16 | after a pattern clear a name survives exactly when it was stored and matches none of the patterns |
| DefaultUpdate.Handle | packages/core/lib/strategies/default-update-strategy.ts:7-31 | (UpdateHandled) one `set(key, result, ttl)`, a fallback `set` with the same arguments only if it rejects, no `get` and no run; resolves to `context.result` |
| Strategies.HandleRead | packages/core/lib/strategies/no-op-strategy.ts:10-17 | (ReadHandled) the default strategy as ReadThrough; NoOpStrategy returns the method applied to the context's scope and args and touches no store |
| Strategies.HandleClear | packages/core/lib/strategies/no-op-strategy.ts:25-29 | (ClearHandledBy) the default as ClearHandled; NoOpClearStrategy resolves to undefined and deletes nothing |
| Strategies.HandleUpdate | packages/core/lib/strategies/no-op-strategy.ts:19-23 | (UpdateHandledBy) the default as UpdateHandled; NoOpUpdateStrategy resolves to undefined, not the result, and touches no store |
| Strategies.UpdateNeverRejects | packages/core/lib/strategies/default-update-strategy.ts:10-30 | under either update strategy the update resolves, with the result under the default one |
| Strategies.ClearNeverRejects | packages/core/lib/strategies/DefaultClearStrategy.ts:4-46 | under either clear strategy the clear resolves to undefined |
| CoreOptions.EffectiveTTL | packages/core/lib/decorators/Cacheable.ts:60-63 | a truthy decorator TTL wins (resolved by getTTL); otherwise a truthy manager TTL, else none; a zero TTL only comes from a builder |
| CoreOptions.ContextOnlyWithoutExclusion | packages/core/lib/decorators/Cacheable.ts:45 | builders see the receiver exactly when `excludeContext` is not set, and `undefined` otherwise |
| CoreOptions.FirstGivenPrecedence | packages/core/lib/decorators/Cacheable.ts:70-74 | the decorator's option, then the manager's, then the default |
| CoreCacheable.Plan | packages/core/lib/decorators/Cacheable.ts:21-87 | a pass-through exactly when the manager is disabled, a noop resolves true against the receiver, or no client is given; otherwise the context carries the method, receiver, args and name, and a fallback exactly when one is supplied |
| CoreCacheable.DelegatedKeyAndClients | packages/core/lib/decorators/Cacheable.ts:45-56 | the key and both clients are resolved with the receiver only when the context is not excluded; the key is the final key with no return value |
| CoreCacheable.DelegatedTTL | packages/core/lib/decorators/Cacheable.ts:58-63 | the TTL precedence of the decorator, then the manager, with 0 becoming none |
| CoreCacheable.DelegatedStrategy | packages/core/lib/decorators/Cacheable.ts:70-74 | the decorator's strategy, then the manager's, then the per-method default instance |
| CoreCacheable.DisabledPassesThrough | packages/core/lib/decorators/Cacheable.ts:28-30 | a disabled manager makes every call a pass-through, whatever the options |
| CoreCacheable.Cacheable.constructor | packages/core/lib/decorators/Cacheable.ts:16-17 | one fresh default strategy per decorated method, with nothing pending |
| CoreCacheable.Cacheable.Call | packages/core/lib/decorators/Cacheable.ts:21-87 | a pass-through returns the method's outcome after one run; otherwise the caller gets exactly what the strategy's `handle` settles with |
| CoreCacheClear.Plan | packages/core/lib/decorators/CacheClear.ts:21-72 | run only, exactly when a noop holds or no client is given (there is no `disabled` check); the clients are handed over unresolved, and `isPattern` is forwarded |
| CoreCacheClear.ClearKeys | packages/core/lib/decorators/CacheClear.ts:44-71 | the key is the final key; `hashesToClear` is set exactly when a truthy hash key comes without a truthy cache key, and is then the resolved hash key |
| CoreCacheClear.ClearStrategyPrecedence | packages/core/lib/decorators/CacheClear.ts:54-58 | the decorator's clear strategy, then the manager's, then a new default one |
| CoreCacheClear.IgnoresDisabled | packages/core/lib/decorators/CacheClear.ts:27-29 | disabling the manager changes nothing for this decorator |
| CoreCacheClear.CacheClear.constructor | packages/core/lib/decorators/CacheClear.ts:12-13 | keeps the options, name, method and manager |
| CoreCacheClear.CacheClear.Call | packages/core/lib/decorators/CacheClear.ts:17-83 | the clear settles first and its errors never reach the caller; then the method runs exactly once and its outcome, value or error, is the call's |
| CoreCacheUpdate.FinalClearKey | packages/core/lib/decorators/cache-update.ts:81-87 | no clear key for `cacheKeysToClear === null`; a given spec gives the final key of that spec under the decorator's hash key with no return value, an omitted option gives the digest key |
| CoreCacheUpdate.Plan | packages/core/lib/decorators/cache-update.ts:28-119 | a pass-through exactly when disabled, noop or no client; the update context carries the result; a clear exactly when the clear key has non-zero length, on the same clients, by the decorator's clear strategy, else the manager's, else the default, resolved with `(args, contextToUse)` |
| CoreCacheUpdate.PostRunKey | packages/core/lib/decorators/cache-update.ts:58-65 | a key builder receives the method's result as its third argument |
| CoreCacheUpdate.UpdateStrategyPrecedence | packages/core/lib/decorators/cache-update.ts:74-79 | the decorator's update strategy, then the manager's, then the default, the builder receiving the result |
| CoreCacheUpdate.OmittedKeysClearUpdatedKey | packages/core/lib/decorators/cache-update.ts:81-87 | with both key options omitted, the clear targets the update's own key, and a clear happens for any non-empty digest |
| CoreCacheUpdate.OmittedKeysUndoTheWrite | packages/core/lib/decorators/cache-update.ts:133-137 | with both key options omitted and a healthy client, the value the update wrote is gone after the clear |
| CoreCacheUpdate.CacheUpdate.constructor | packages/core/lib/decorators/cache-update.ts:22-24 | keeps the options, name, method and manager |
| CoreCacheUpdate.CacheUpdate.Call | packages/core/lib/decorators/cache-update.ts:28-139 | the method runs once, first; a pass-through or a rejected run returns that outcome and touches no store; otherwise the update handle completes, then the clear (if any) runs, and the update's result is returned |
| CoreCacheManager.CacheManager.constructor | packages/core/lib/cache-manager.ts:5-15 | no client and no fallback; not disabled, context excluded, TTL 0, no debug; default strategies |
| CoreCacheManager.CacheManager.SetClient | packages/core/lib/cache-manager.ts:17-23 | stores the client; copies the client TTL into a falsy `ttlSeconds` and leaves a non-zero one; the fallback is untouched |
| CoreCacheManager.CacheManager.SetFallbackClient | packages/core/lib/cache-manager.ts:25-27 | changes only the fallback client |
| CoreCacheManager.CacheManager.SetOptions | packages/core/lib/cache-manager.ts:29-31 | replaces the options wholesale |
| CoreCacheManager.CacheManager.Disable | packages/core/lib/cache-manager.ts:33-35 | sets `disabled` to true and changes nothing else |
| CoreCacheManager.CacheManager.Enable | packages/core/lib/cache-manager.ts:37-39 | sets `disabled` to false and changes nothing else |
| EarlierCacheManager.CacheManager.constructor | packages/core/lib/CacheManager.ts:4-9 | no client; context excluded, TTL 0, no debug |
| EarlierCacheManager.CacheManager.SetClient | packages/core/lib/CacheManager.ts:11-17 | stores the client and copies its TTL into a falsy `ttlSeconds`; a non-zero one survives |
| EarlierCacheManager.CacheManager.SetOptions | packages/core/lib/CacheManager.ts:19-21 | replaces the options wholesale and keeps the client |
| LegacyKey.ExtractKey | lib/util/getCacheKey.ts:14-20 | an absent key is `''`; a literal is returned; a builder is called with `(args, context)` |
| LegacyKey.GetCacheKey | lib/util/getCacheKey.ts:35-53 | a truthy key is extracted; a falsy one is the digest of `{args, methodName, context}`, 32 hex digits when MD5-shaped |
| LegacyKey.FinalKey | lib/decorators/CacheClear.ts:33-37 | `hashKey:cacheKey` for a non-empty hash key, else the cache key |
| LegacyKey.SplitJoin | lib/util/getCacheKey.ts:56 | joining the parts of a split with the separator gives back the string, and no part holds the separator |
| LegacyKey.SplitAtSeparator | lib/util/getCacheKey.ts:56 | a string holding the separator splits into at least two parts |
| LegacyKey.SplitWithoutSeparator | lib/util/getCacheKey.ts:56 | a string without the separator is its own single part |
| LegacyKey.GetSeparatedKeys | lib/util/getCacheKey.ts:55-57 | null exactly when the key has no `:`; otherwise at least two `:`-free parts whose join with `:` is the key |
| LegacyKey.FinalKeySeparates | lib/util/getCacheKey.ts:55-57 | a `hash:key` final key separates back into exactly the hash and the key |
| LegacyKey.SplitOfPair | lib/util/getCacheKey.ts:56 | `a:b` with `:` in neither half splits into exactly `[a, b]` |
| LegacyFields.IsScalar | lib/util/isScalar.ts:5-12 | true exactly for a plain object whose only key is `''` with a truthy value there; false for falsy or non-object input |
| LegacyFields.Flatten | lib/util/fieldify.ts:6-8 | twice as many fields as entries; keys unchanged at even positions in entry order, serialised values at odd ones |
| LegacyFields.Fieldify | lib/util/fieldify.ts:4-12 | an object is flattened; arrays and other non-objects become `['', s(value)]`; `null` throws |
| LegacyFields.PairUpFlatten | lib/util/fieldify.ts:6-8 | pairing the fields of an object back up gives each key with its serialised value, in order |
| LegacyFields.FieldifiedScalarIsScalar | lib/util/fieldify.ts:9-11 | a non-object is stored as the single pair `('', s(value))`, which reads back as a scalar exactly when the text is non-empty |
| LegacyCacheManager.CacheManager.constructor | lib/CacheManager.ts:4-7 | no client, options `{ttlSeconds: 0}` |
| LegacyCacheManager.CacheManager.SetClient | lib/CacheManager.ts:9-11 | sets only the client, with no TTL copy |
| LegacyCacheManager.CacheManager.SetOptions | lib/CacheManager.ts:13-15 | replaces the options wholesale and leaves the client |
| LegacyCacheManager.InitialOptionsKeepContextAndNoTTL | lib/CacheManager.ts:4-7 | with the initial options builders see the receiver and no manager TTL applies |
| LegacyCacheable.ClientFor | lib/decorators/Cacheable.ts:20-22 | the decorator's client if given, else the manager's |
| LegacyCacheable.Deserialize | lib/decorators/Cacheable.ts:50-58 | without options or with `deserializer: false` the raw value; a function deserializer is applied; otherwise only a client's `defaultDeserializer` that is a function gives a value; a null one falls through to a miss; failures become a miss |
| LegacyCacheable.CachedRead | lib/decorators/Cacheable.ts:44-64 | a rejected `get` or a nullish value is a miss, never an error; otherwise the deserialised value |
| LegacyCacheable.RepeatedCallHits | lib/decorators/Cacheable.ts:45-81 | a value a healthy client stored on a miss is a hit on the next call with the same key, when values are returned raw |
| LegacyCacheable.DefaultDeserializerDecides | lib/decorators/Cacheable.ts:53-55 | with options but no deserializer, a hit needs a client deserializer that accepts the value |
| LegacyCacheable.Cacheable.constructor | lib/decorators/Cacheable.ts:13-16 | keeps the options, name, method and manager |
| LegacyCacheable.Cacheable.Call | lib/decorators/Cacheable.ts:17-84 | with no client the method just runs, noop or not; a hit returns without running the method; on a miss the method runs once; its error propagates with no write, and its value is `set` under the key with the resolved TTL; a `set` failure is swallowed and the value returned |
| LegacyCacheField.FieldFor | lib/decorators/CacheField.ts:41 | the field is the literal `fieldKey` or a builder's result over `(args, context)`, used only when non-empty; none when absent |
| LegacyCacheField.CacheField.constructor | lib/decorators/CacheField.ts:11-12 | keeps the options, name, method and manager |
| LegacyCacheField.CacheField.Call | lib/decorators/CacheField.ts:15-68 | changes no store; with no client the method just runs; a `get` of the key (with the field when there is one) that hits returns without a run; a miss or a `get` error returns the method's outcome |
| LegacyCacheClear.FactoryClient | lib/decorators/CacheClear.ts:14-16 | the decorator's client if given, else the manager's, read once when the decorator is created |
| LegacyCacheClear.DecorationError | lib/decorators/CacheClear.ts:20-22 | an error exactly when there is no client and `noop` is not set, and then `Missing cache client for <name>` |
| LegacyCacheClear.Decorate | lib/decorators/CacheClear.ts:11-22 | decoration fails exactly as DecorationError says; otherwise the decorated method holds the client read at that moment |
| LegacyCacheClear.CacheClear.constructor | lib/decorators/CacheClear.ts:18-19 | keeps the options, client, name and method |
| LegacyCacheClear.CacheClear.Call | lib/decorators/CacheClear.ts:26-45 | with no client the method just runs; otherwise the method runs first, and its error returns with nothing deleted; after a value exactly one `del` of the key built with the receiver follows; a `del` failure reaches the caller |
| LegacyCacheClear.SameKeyAsCacheable | lib/decorators/CacheClear.ts:33-37 | for the same key options, the deleted key is the one `Cacheable` uses, unless the manager excludes the context |
| LegacyCacheClear.ClearedKeyMisses | lib/decorators/CacheClear.ts:43 | after the delete, a read of that key is a miss |

## Left out

- Store adapters (Redis, ioredis, node-cache, lru-cache, sqlite, cache-manager) are left out. They are network I/O over libraries that are not part of this model; `MockAdapter` is the only store.
- JSON and escape codecs (`parseIfRequired`, `BasicDeserializer`, `serializeValue`) are left out as string formatting and parsing. `serializeValue` and deserializers are function parameters.
- MD5 and `serialize-javascript` are foreign calls, modelled as one digest parameter. `Md5Shaped` states the 32-hex-digit shape as an assumption about it.
- Concurrency is left out. The pending maps are modelled in place, but with sequential `await` they are empty on entry in practice. The deduplication of concurrent calls is not modelled.
- CoreCacheUpdate.CacheUpdate.Call: parallel mode (`clearAndUpdateInParallel`) runs the update and then the clear in order, like the sequential mode. With `MockAdapter` the first store calls happen in that order anyway, but interleaved fallback writes are not modelled.
- A method that throws synchronously is not told apart from one that rejects. In `packages/core/lib/decorators/CacheClear.ts` such a throw in the early-return branches would be caught and the method run a second time; the model does not capture this.
- A deserializer is modelled as either returning or throwing. A deserializer returning a rejected promise, which the legacy `return` inside `try` would not catch, is not modelled.
- Debug logging (`console.warn`) and the `debug` option are left out, as output only.
- `isCacheable` is left out. It is passed by `Cacheable.ts` but never read by the modelled strategies.
- `withTimeout`, `set-metadata` and `packages/core/lib/decorators/CacheUpdate.ts` (the older variant) are not part of this model.
- Key values other than strings or string lists (numbers, objects returned by builders) are not modelled.
- JavaScript property quirks of the `MockAdapter` dictionary are left out: inherited prototype names, and integer-like names that `Object.keys` lists first.
- Options objects are immutable values. `setOptions` sharing a caller's object (later mutation through an alias) is not modelled. Absent options are all-`None`, except in the root package's `Cacheable` and `CacheField`, where "no options object" is distinct.
- Options whose value is `null` or `undefined` on the managers (`this.options &&` guards) are not modelled; the options record is always present.
- MockStore.MockAdapter.Get: the `field` argument is recorded in the trace but not read, as in `MockAdapter`; hash fields are not stored.
- The order of evaluation between `disabled` and a `noop` builder is not observable, since builders are pure functions here.
- `lib/util/getTTL.ts` is not part of this model. The root package's TTL uses the literal-or-builder rule of `packages/core/lib/util/get-ttl.ts`.
