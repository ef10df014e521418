/** The `Cacheable` decorator of packages/core/lib/decorators/Cacheable.ts: per call, decide
    between running the method directly and handing a resolved context to a read strategy. */
module CoreCacheable {
  import opened JsValue
  import opened Builders
  import opened Resolvers
  import opened CacheKey
  import opened MockStore
  import opened StrategyContexts
  import opened DefaultRead
  import opened Strategies
  import opened CoreOptions
  import opened CoreCacheManager

  /** What one call does: run the method directly, or call `strategy.handle(ctx)`. */
  datatype ReadPlan = PassThrough | Delegate(strategy: ReadStrategy, ctx: ReadContext)

  /** The decision and resolution of one call with receiver `scope` and arguments `args`;
      `defaultStrategy` is the one created when the method was decorated. */
  function Plan(options: CacheOptions, m: ManagerState, defaultStrategy: DefaultStrategy, propertyKey: string,
                original: Method, scope: Value, args: seq<Value>, digest: Digest): (p: ReadPlan)
    ensures p.PassThrough? <==>
              Disabled(m.options) || NoopHolds(options.noop, args, scope) || ClientOption(options.client, m.client).None?
    ensures p.Delegate? ==>
              && p.ctx.originalMethod == original && p.ctx.scope == scope && p.ctx.args == args
              && p.ctx.propertyKey == propertyKey
              && (p.ctx.fallbackClient.Some? <==> ClientOption(options.fallbackClient, m.fallbackClient).Some?)
  {
    var client := ClientOption(options.client, m.client);
    if Disabled(m.options) || NoopHolds(options.noop, args, scope) || client.None? then PassThrough
    else
      var context := ContextToUse(m.options, scope);
      var fallback := ClientOption(options.fallbackClient, m.fallbackClient);
      var ctx := ReadContext(
        original, scope, args, propertyKey,
        GetCacheClientForCacheable(client.value, args, context),
        if fallback.Some? then Some(GetCacheClientForCacheable(fallback.value, args, context)) else None,
        GetFinalKey(options.cacheKey, options.hashKey, propertyKey, args, context, Undefined, digest),
        EffectiveTTL(options.ttlSeconds, m.options.ttlSeconds, args, context));
      var strategy := GetCacheStrategy(FirstGiven(options.strategy, m.options.strategy,
                                                  Literal(DefaultReadStrategy(defaultStrategy))), args, context);
      Delegate(strategy, ctx)
  }

  /** What a call may change. */
  function PlanFrame(p: ReadPlan): set<object> {
    if p.PassThrough? then {} else ReadFrame(p.strategy, p.ctx)
  }

  /** Builders (key, hash key, client, TTL, strategy) see the receiver only when the manager
      does not exclude the context; the key is the final key of the decorator's key options,
      with no return value. */
  lemma DelegatedKeyAndClients(options: CacheOptions, m: ManagerState, defaultStrategy: DefaultStrategy,
                               propertyKey: string, original: Method, scope: Value, args: seq<Value>, digest: Digest)
    requires Plan(options, m, defaultStrategy, propertyKey, original, scope, args, digest).Delegate?
    ensures var p := Plan(options, m, defaultStrategy, propertyKey, original, scope, args, digest);
            var context := if m.options.excludeContext == Some(true) then Undefined else scope;
            && p.ctx.key == GetFinalKey(options.cacheKey, options.hashKey, propertyKey, args, context, Undefined, digest)
            && p.ctx.client == GetCacheClientForCacheable(ClientOption(options.client, m.client).value, args, context)
            && (p.ctx.fallbackClient.Some? ==>
                  p.ctx.fallbackClient.value ==
                    GetCacheClientForCacheable(ClientOption(options.fallbackClient, m.fallbackClient).value, args, context))
  {
  }

  /** The decorator's truthy `ttlSeconds` wins, else a truthy manager TTL, else none: a zero
      TTL only ever comes from a builder. */
  lemma DelegatedTTL(options: CacheOptions, m: ManagerState, defaultStrategy: DefaultStrategy,
                     propertyKey: string, original: Method, scope: Value, args: seq<Value>, digest: Digest)
    requires Plan(options, m, defaultStrategy, propertyKey, original, scope, args, digest).Delegate?
    ensures var p := Plan(options, m, defaultStrategy, propertyKey, original, scope, args, digest);
            var context := ContextToUse(m.options, scope);
            && (options.ttlSeconds.Some? && NumberSpecTruthy(options.ttlSeconds.value) ==>
                  p.ctx.ttl == Some(GetTTL(options.ttlSeconds.value, args, context)))
            && (options.ttlSeconds.None? ==> p.ctx.ttl == if NumberTruthy(m.options.ttlSeconds) then m.options.ttlSeconds else None)
            && (options.ttlSeconds == Some(Literal(0)) ==> p.ctx.ttl == if NumberTruthy(m.options.ttlSeconds) then m.options.ttlSeconds else None)
            && (p.ctx.ttl == Some(0) ==> options.ttlSeconds.Some? && options.ttlSeconds.value.Builder?)
  {
  }

  /** The decorator's strategy, then the manager's, then the per-method default instance, with
      builders resolved against the call. */
  lemma DelegatedStrategy(options: CacheOptions, m: ManagerState, defaultStrategy: DefaultStrategy,
                          propertyKey: string, original: Method, scope: Value, args: seq<Value>, digest: Digest)
    requires Plan(options, m, defaultStrategy, propertyKey, original, scope, args, digest).Delegate?
    ensures var p := Plan(options, m, defaultStrategy, propertyKey, original, scope, args, digest);
            var context := ContextToUse(m.options, scope);
            && (options.strategy.Some? ==> p.strategy == GetCacheStrategy(options.strategy.value, args, context))
            && (options.strategy.None? && m.options.strategy.Some? ==>
                  p.strategy == GetCacheStrategy(m.options.strategy.value, args, context))
            && (options.strategy.None? && m.options.strategy.None? ==> p.strategy == DefaultReadStrategy(defaultStrategy))
  {
  }

  /** A disabled manager makes every call run the method directly, whatever the options. */
  lemma DisabledPassesThrough(options: CacheOptions, m: ManagerState, defaultStrategy: DefaultStrategy,
                              propertyKey: string, original: Method, scope: Value, args: seq<Value>, digest: Digest)
    requires Disabled(m.options)
    ensures Plan(options, m, defaultStrategy, propertyKey, original, scope, args, digest) == PassThrough
  {
  }

  /** One decorated method. */
  class Cacheable {
    const options: CacheOptions
    const propertyKey: string
    const originalMethod: Method
    const defaultStrategy: DefaultStrategy
    const manager: CacheManager
    const digest: Digest

    /** Decoration creates the method's own default strategy, with nothing pending. */
    constructor (options: CacheOptions, propertyKey: string, originalMethod: Method, manager: CacheManager, digest: Digest)
      ensures this.options == options && this.propertyKey == propertyKey && this.originalMethod == originalMethod
      ensures this.manager == manager && this.digest == digest
      ensures fresh(defaultStrategy)
      ensures defaultStrategy.pendingCacheRequests == map[] && defaultStrategy.pendingMethodCalls == map[]
    {
      this.options := options;
      this.propertyKey := propertyKey;
      this.originalMethod := originalMethod;
      this.manager := manager;
      this.digest := digest;
      defaultStrategy := new DefaultStrategy();
    }

    function CallPlan(scope: Value, args: seq<Value>): ReadPlan
      reads manager
    {
      Plan(options, manager.State(), defaultStrategy, propertyKey, originalMethod, scope, args, digest)
    }

    /** The decorated method: the method's own outcome on a pass-through, else exactly what
        the strategy's `handle` settles with. */
    method Call(scope: Value, args: seq<Value>) returns (r: Outcome, ghost trace: seq<Event>)
      modifies PlanFrame(CallPlan(scope, args))
      ensures var p := old(CallPlan(scope, args));
              && (p.PassThrough? ==> r == originalMethod(scope, args) && trace == [Ran(scope, args)])
              && (p.Delegate? ==> ReadHandled(p.strategy, p.ctx, r, trace))
    {
      var p := CallPlan(scope, args);
      if p.PassThrough? {
        r := originalMethod(scope, args);
        trace := [Ran(scope, args)];
      } else {
        r, trace := HandleRead(p.strategy, p.ctx);
      }
    }
  }
}
