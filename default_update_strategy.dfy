/** packages/core/lib/strategies/default-update-strategy.ts: write `context.result` with
    fallback and resolve to it. */
module DefaultUpdate {
  import opened JsValue
  import opened MockStore
  import opened StrategyContexts

  /** One `handle(ctx)`, taking the caches `before` and `fallbackBefore` to `after` and
      `fallbackAfter`: a single
      `set(key, result, ttl)` on the primary, a fallback `set` with the same arguments only when
      it rejects, no `get` and no run, and `result` returned whatever the writes did. */
  predicate UpdateHandled(ctx: UpdateContext, before: Dict, fallbackBefore: Dict, after: Dict, fallbackAfter: Dict,
                          r: Outcome, trace: seq<Event>)
  {
    && r == Ok(ctx.result)
    && trace == SetCalls(ctx.client, ctx.fallbackClient, ctx.key, ctx.result, ctx.ttl)
    && WroteThrough(ctx.client, ctx.fallbackClient, before, fallbackBefore, after, fallbackAfter, ctx.key, ctx.result)
  }

  /** DefaultUpdateStrategy.handle, proved against `UpdateHandled`. */
  method Handle(ctx: UpdateContext) returns (r: Outcome, ghost trace: seq<Event>)
    modifies ctx.client, Stores(ctx.fallbackClient)
    ensures UpdateHandled(ctx, old(ctx.client.cache), old(StoreCache(ctx.fallbackClient)),
                          ctx.client.cache, StoreCache(ctx.fallbackClient), r, trace)
    ensures old(ctx.client.Valid()) ==> ctx.client.Valid()
    ensures ctx.fallbackClient.Some? && old(ctx.fallbackClient.value.Valid()) ==> ctx.fallbackClient.value.Valid()
  {
    trace := SetWithFallback(ctx.client, ctx.fallbackClient, ctx.key, ctx.result, ctx.ttl);
    r := Ok(ctx.result);
  }
}
