/** The `CacheClear` decorator of packages/core/lib/decorators/CacheClear.ts: per call, clear
    through a clear strategy and then run the method. */
module CoreCacheClear {
  import opened JsValue
  import opened Builders
  import opened Resolvers
  import opened CacheKey
  import opened MockStore
  import opened StrategyContexts
  import opened Strategies
  import opened CoreOptions
  import opened CoreCacheManager

  /** What one call does before running the method: nothing, or `strategy.handle(ctx)`. */
  datatype ClearPlan = RunOnly | ClearThenRun(strategy: ClearStrategy, ctx: ClearContext)

  /** Truthiness of an optional key option. */
  predicate KeyOptionTruthy(o: Option<Spec<Key>>) {
    o.Some? && KeySpecTruthy(o.value)
  }

  /** The decision and resolution of one call. The client options are handed over unresolved. */
  function Plan(options: CacheClearOptions, m: ManagerState, propertyKey: string, original: Method,
                scope: Value, args: seq<Value>, digest: Digest): (p: ClearPlan)
    ensures p.RunOnly? <==> NoopHolds(options.noop, args, scope) || ClientOption(options.client, m.client).None?
    ensures p.ClearThenRun? ==>
              && p.ctx.originalMethod == original && p.ctx.scope == scope && p.ctx.args == args
              && p.ctx.propertyKey == propertyKey
              && Some(p.ctx.client) == ClientOption(options.client, m.client)
              && p.ctx.fallbackClient == ClientOption(options.fallbackClient, m.fallbackClient)
              && p.ctx.isPattern == options.isPattern
  {
    var client := ClientOption(options.client, m.client);
    if NoopHolds(options.noop, args, scope) || client.None? then RunOnly
    else
      var context := ContextToUse(m.options, scope);
      var clearHash := KeyOptionTruthy(options.hashKey) && !KeyOptionTruthy(options.cacheKey);
      var ctx := ClearContext(
        original, scope, args, propertyKey, client.value, ClientOption(options.fallbackClient, m.fallbackClient),
        GetFinalKey(options.cacheKey, options.hashKey, propertyKey, args, context, Undefined, digest),
        options.isPattern,
        if clearHash then Some(ExtractKey(options.hashKey, args, context, Undefined)) else None);
      var strategy := GetCacheClearStrategy(FirstGiven(options.strategy, m.options.clearStrategy,
                                                       Literal(DefaultClearStrategy)), args, context);
      ClearThenRun(strategy, ctx)
  }

  function PlanFrame(p: ClearPlan): set<object> {
    if p.RunOnly? then {} else SpecStores(p.ctx.client) + OptionalSpecStores(p.ctx.fallbackClient)
  }

  /** `hashesToClear` is set exactly when a truthy `hashKey` comes without a truthy `cacheKey`,
      and is then the resolved hash key; the key is the final key with no return value. */
  lemma ClearKeys(options: CacheClearOptions, m: ManagerState, propertyKey: string, original: Method,
                  scope: Value, args: seq<Value>, digest: Digest)
    requires Plan(options, m, propertyKey, original, scope, args, digest).ClearThenRun?
    ensures var p := Plan(options, m, propertyKey, original, scope, args, digest);
            var context := ContextToUse(m.options, scope);
            && p.ctx.key == GetFinalKey(options.cacheKey, options.hashKey, propertyKey, args, context, Undefined, digest)
            && (p.ctx.hashesToClear.Some? <==> KeyOptionTruthy(options.hashKey) && !KeyOptionTruthy(options.cacheKey))
            && (p.ctx.hashesToClear.Some? ==> p.ctx.hashesToClear.value == ExtractKey(options.hashKey, args, context, Undefined))
  {
  }

  /** The decorator's clear strategy, then the manager's, then a new default one. */
  lemma ClearStrategyPrecedence(options: CacheClearOptions, m: ManagerState, propertyKey: string, original: Method,
                                scope: Value, args: seq<Value>, digest: Digest)
    requires Plan(options, m, propertyKey, original, scope, args, digest).ClearThenRun?
    ensures var p := Plan(options, m, propertyKey, original, scope, args, digest);
            var context := ContextToUse(m.options, scope);
            && (options.strategy.Some? ==> p.strategy == GetCacheClearStrategy(options.strategy.value, args, context))
            && (options.strategy.None? && m.options.clearStrategy.Some? ==>
                  p.strategy == GetCacheClearStrategy(m.options.clearStrategy.value, args, context))
            && (options.strategy.None? && m.options.clearStrategy.None? ==> p.strategy == DefaultClearStrategy)
  {
  }

  /** This decorator has no `disabled` check: disabling the manager changes nothing. */
  lemma IgnoresDisabled(options: CacheClearOptions, m: ManagerState, b: bool, propertyKey: string, original: Method,
                        scope: Value, args: seq<Value>, digest: Digest)
    ensures Plan(options, m.(options := m.options.(disabled := Some(b))), propertyKey, original, scope, args, digest)
            == Plan(options, m, propertyKey, original, scope, args, digest)
  {
  }

  /** One decorated method. */
  class CacheClear {
    const options: CacheClearOptions
    const propertyKey: string
    const originalMethod: Method
    const manager: CacheManager
    const digest: Digest

    constructor (options: CacheClearOptions, propertyKey: string, originalMethod: Method, manager: CacheManager, digest: Digest)
      ensures this.options == options && this.propertyKey == propertyKey && this.originalMethod == originalMethod
      ensures this.manager == manager && this.digest == digest
    {
      this.options := options;
      this.propertyKey := propertyKey;
      this.originalMethod := originalMethod;
      this.manager := manager;
      this.digest := digest;
    }

    function CallPlan(scope: Value, args: seq<Value>): ClearPlan
      reads manager
    {
      Plan(options, manager.State(), propertyKey, originalMethod, scope, args, digest)
    }

    /** The decorated method: the clear (if any) settles first, any error of it is swallowed,
        and then the method runs once; its outcome, value or error, is the call's. */
    method Call(scope: Value, args: seq<Value>) returns (r: Outcome, ghost trace: seq<Event>, ghost clearTrace: seq<Event>)
      modifies PlanFrame(CallPlan(scope, args))
      ensures r == originalMethod(scope, args)
      ensures var p := old(CallPlan(scope, args));
              && (p.RunOnly? ==> trace == [Ran(scope, args)] && clearTrace == [])
              && (p.ClearThenRun? ==>
                    && trace == clearTrace + [Ran(scope, args)]
                    && ClearHandledBy(p.strategy, p.ctx, old(SpecCache(p.ctx.client)), old(OptionalSpecCache(p.ctx.fallbackClient)),
                                      SpecCache(p.ctx.client), OptionalSpecCache(p.ctx.fallbackClient), Ok(Undefined), clearTrace))
    {
      var p := CallPlan(scope, args);
      clearTrace := [];
      if p.ClearThenRun? {
        var cleared;
        cleared, clearTrace := HandleClear(p.strategy, p.ctx);
        ClearNeverRejects(p.strategy, p.ctx, old(SpecCache(p.ctx.client)), old(OptionalSpecCache(p.ctx.fallbackClient)),
                          SpecCache(p.ctx.client), OptionalSpecCache(p.ctx.fallbackClient), cleared, clearTrace);
      }
      r := originalMethod(scope, args);
      trace := clearTrace + [Ran(scope, args)];
    }
  }
}
