/** The read-through strategy of packages/core/lib/strategies/DefaultStrategy.ts. With `await`
    read as sequential execution, an entry in a pending map stands for a request that another
    call started on the same key and that has already settled with the recorded outcome. */
module DefaultRead {
  import opened JsValue
  import opened MockStore
  import opened StrategyContexts

  /** `cachedValue !== undefined && cachedValue !== null`, for a settled lookup. */
  predicate IsCachedValue(o: Outcome) {
    o.Ok? && !Nullish(o.value)
  }

  class DefaultStrategy {
    /** `pendingCacheRequestMap` */
    var pendingCacheRequests: map<Key, Outcome>
    /** `pendingMethodCallMap` */
    var pendingMethodCalls: map<Key, Outcome>

    constructor ()
      ensures pendingCacheRequests == map[] && pendingMethodCalls == map[]
    {
      pendingCacheRequests := map[];
      pendingMethodCalls := map[];
    }

    /** What `findCachedValue(client, key)` settles with: the pending request for the key when
        there is one, else the client's `get`. */
    function PendingOrGet(client: MockAdapter, key: Key): Outcome
      reads this, client
    {
      if key in pendingCacheRequests then pendingCacheRequests[key] else client.GetOutcome(key)
    }

    /** `findCachedValue`: awaits the pending request or issues and records a `get`; the
        `finally` removes the key's pending entry either way. */
    method FindCachedValue(client: MockAdapter, key: Key) returns (r: Outcome, ghost trace: seq<Event>)
      modifies this
      ensures r == old(PendingOrGet(client, key))
      ensures trace == if key in old(pendingCacheRequests) then [] else [Called(client, GetCall(key, None))]
      ensures pendingCacheRequests == old(pendingCacheRequests) - {key}
      ensures pendingMethodCalls == old(pendingMethodCalls)
    {
      if key in pendingCacheRequests {
        r := pendingCacheRequests[key];
        trace := [];
      } else {
        ghost var call;
        r, call := client.Get(key, None);
        pendingCacheRequests := pendingCacheRequests[key := r];
        trace := [Called(client, call)];
      }
      pendingCacheRequests := pendingCacheRequests - {key};
    }

    /** `handle`, proved against `ReadThrough`. */
    method Handle(ctx: ReadContext) returns (r: Outcome, ghost trace: seq<Event>)
      modifies this, ctx.client, Stores(ctx.fallbackClient)
      ensures ReadThrough(this, ctx, r, trace)
      ensures old(ctx.client.Valid()) ==> ctx.client.Valid()
      ensures ctx.fallbackClient.Some? && old(ctx.fallbackClient.value.Valid()) ==> ctx.fallbackClient.value.Valid()
    {
      var primary;
      primary, trace := FindCachedValue(ctx.client, ctx.key);
      if IsCachedValue(primary) {
        r := primary;
        return;
      }
      if primary.Err? && ctx.fallbackClient.Some? {
        var second;
        ghost var t;
        second, t := FindCachedValue(ctx.fallbackClient.value, ctx.key);
        trace := trace + t;
        if IsCachedValue(second) {
          r := second;
          return;
        }
      }
      if ctx.key in pendingMethodCalls {
        r := pendingMethodCalls[ctx.key];
        return;
      }
      // the method promise rejects with the method's error, yet the `set` below still runs
      var run := ctx.originalMethod(ctx.scope, ctx.args);
      ghost var t := SetWithFallback(ctx.client, ctx.fallbackClient, ctx.key, ValueOrUndefined(run), ctx.ttl);
      trace := trace + [Ran(ctx.scope, ctx.args)] + t;
      pendingMethodCalls := pendingMethodCalls[ctx.key := run];
      r := pendingMethodCalls[ctx.key];
      pendingMethodCalls := pendingMethodCalls - {ctx.key};
    }
  }

  /** Whether the fallback is consulted: only when the primary lookup rejected. */
  predicate ConsultsFallback(primary: Outcome, fallback: Option<MockAdapter>) {
    primary.Err? && fallback.Some?
  }

  /** One `handle(ctx)` of `s`, from the state before it to the state after it.
      The lookup reads the pending request or the primary; only a rejection there makes the
      fallback be read, afresh, since the pending entry is gone by then. A value that is not
      null or undefined is returned with no write and no run. On a miss, a pending method run
      for the key is awaited; otherwise the method runs once, its value (undefined when it
      rejected) is written with fallback, and its outcome is returned. Afterwards no request
      for the key is pending and the method-call map is as before. */
  twostate predicate ReadThrough(s: DefaultStrategy, ctx: ReadContext, new r: Outcome, new trace: seq<Event>)
    reads s, ctx.client, Stores(ctx.fallbackClient)
  {
    var key := ctx.key;
    var primary := old(s.PendingOrGet(ctx.client, key));
    var consult := ConsultsFallback(primary, ctx.fallbackClient);
    var second := if consult then old(ctx.fallbackClient.value.GetOutcome(key)) else Ok(Undefined);
    var lookups := (if key in old(s.pendingCacheRequests) then [] else [Called(ctx.client, GetCall(key, None))])
                   + (if consult then [Called(ctx.fallbackClient.value, GetCall(key, None))] else []);
    && s.pendingCacheRequests == old(s.pendingCacheRequests) - {key}
    && s.pendingMethodCalls == old(s.pendingMethodCalls)
    && if IsCachedValue(primary) || IsCachedValue(second) then
         && r == (if IsCachedValue(primary) then primary else second)
         && trace == lookups
         && unchanged(ctx.client) && unchanged(Stores(ctx.fallbackClient))
       else if key in old(s.pendingMethodCalls) then
         && r == old(s.pendingMethodCalls)[key]
         && trace == lookups
         && unchanged(ctx.client) && unchanged(Stores(ctx.fallbackClient))
       else
         var run := ctx.originalMethod(ctx.scope, ctx.args);
         && r == run
         && trace == lookups + [Ran(ctx.scope, ctx.args)] + SetCalls(ctx.client, ctx.fallbackClient, key, ValueOrUndefined(run), ctx.ttl)
         && WroteThrough(ctx.client, ctx.fallbackClient, old(ctx.client.cache), old(StoreCache(ctx.fallbackClient)),
                         ctx.client.cache, StoreCache(ctx.fallbackClient), key, ValueOrUndefined(run))
  }
}
