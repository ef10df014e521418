/** The contexts the decorators hand to a strategy (packages/core/lib/interfaces/
    cache-strategy-context.ts, cache-clear-strategy-context.ts, CacheUpdateStrategyContext.ts),
    and the write-with-fallback step that the read-through and update strategies share. */
module StrategyContexts {
  import opened JsValue
  import opened Builders
  import opened MockStore

  /** CacheStrategyContext; `debug` and `isCacheable` are not read by the modelled strategies. */
  datatype ReadContext = ReadContext(
    originalMethod: Method,
    scope: Value,
    args: seq<Value>,
    propertyKey: string,
    client: MockAdapter,
    fallbackClient: Option<MockAdapter>,
    key: Key,
    ttl: Option<int>)

  /** CacheClearStrategyContext. The clients are whatever the decorator passed: CacheClear
      hands over unresolved client options, which need not be clients at all. */
  datatype ClearContext = ClearContext(
    originalMethod: Method,
    scope: Value,
    args: seq<Value>,
    propertyKey: string,
    client: Spec<MockAdapter>,
    fallbackClient: Option<Spec<MockAdapter>>,
    key: Key,
    isPattern: Option<bool>,
    hashesToClear: Option<Key>)

  /** CacheUpdateStrategyContext, carrying the decorated method's `result`. */
  datatype UpdateContext = UpdateContext(
    originalMethod: Method,
    scope: Value,
    args: seq<Value>,
    propertyKey: string,
    client: MockAdapter,
    fallbackClient: Option<MockAdapter>,
    key: Key,
    ttl: Option<int>,
    result: Value)

  /** The store behind an optional client. */
  function Stores(c: Option<MockAdapter>): set<MockAdapter> {
    if c.Some? then {c.value} else {}
  }

  /** The store behind a client option, when it is one. */
  function SpecStores(c: Spec<MockAdapter>): set<MockAdapter> {
    if c.Literal? then {c.value} else {}
  }

  function OptionalSpecStores(c: Option<Spec<MockAdapter>>): set<MockAdapter> {
    if c.Some? then SpecStores(c.value) else {}
  }

  /** The calls of `client.set(...)` followed, when it rejects, by `fallbackClient.set(...)`. */
  function SetCalls(client: MockAdapter, fallback: Option<MockAdapter>, key: Key, value: Value, ttl: Option<int>): seq<Event> {
    [Called(client, SetCall(key, value, ttl))]
      + (if client.setFails && fallback.Some? then [Called(fallback.value, SetCall(key, value, ttl))] else [])
  }

  /** The cache behind an optional client (the empty dictionary when there is none). */
  function StoreCache(c: Option<MockAdapter>): Dict
    reads Stores(c)
  {
    if c.Some? then c.value.cache else EmptyDict
  }

  /** The cache behind a client option that is a client. */
  function SpecCache(c: Spec<MockAdapter>): Dict
    reads SpecStores(c)
  {
    if c.Literal? then c.value.cache else EmptyDict
  }

  function OptionalSpecCache(c: Option<Spec<MockAdapter>>): Dict
    reads OptionalSpecStores(c)
  {
    if c.Some? then SpecCache(c.value) else EmptyDict
  }

  /** A write with fallback takes the caches `before` and `fallbackBefore` to `after` and
      `fallbackAfter`: the primary holds the value unless its `set` rejects; a distinct fallback
      holds it exactly when the primary rejected and it did not. */
  predicate WroteThrough(client: MockAdapter, fallback: Option<MockAdapter>, before: Dict, fallbackBefore: Dict,
                         after: Dict, fallbackAfter: Dict, key: Key, value: Value)
  {
    && after == AfterSet(before, client.setFails, key, value)
    && (fallback.Some? && fallback.value != client ==>
          fallbackAfter == AfterSet(fallbackBefore, !client.setFails || fallback.value.setFails, key, value))
  }

  /** `try { await client.set(key, value, ttl) } catch { try { await fallbackClient?.set(...) } catch {} }`:
      both rejections are swallowed. */
  method SetWithFallback(client: MockAdapter, fallback: Option<MockAdapter>, key: Key, value: Value, ttl: Option<int>)
    returns (ghost trace: seq<Event>)
    modifies client, Stores(fallback)
    ensures WroteThrough(client, fallback, old(client.cache), old(StoreCache(fallback)), client.cache, StoreCache(fallback),
                         key, value)
    ensures trace == SetCalls(client, fallback, key, value, ttl)
    ensures old(client.Valid()) ==> client.Valid()
    ensures fallback.Some? && old(fallback.value.Valid()) ==> fallback.value.Valid()
  {
    var written, call := client.Set(key, value, ttl);
    trace := [Called(client, call)];
    if written.Err? && fallback.Some? {
      var _, call2 := fallback.value.Set(key, value, ttl);
      trace := trace + [Called(fallback.value, call2)];
    }
  }
}
