/** The `CacheUpdate` decorator of packages/core/lib/decorators/cache-update.ts: per call, run
    the method first, then write its result through an update strategy and optionally clear
    other keys through a clear strategy. */
module CoreCacheUpdate {
  import opened JsValue
  import opened Builders
  import opened Resolvers
  import opened CacheKey
  import opened MockStore
  import opened StrategyContexts
  import opened DefaultClear
  import opened Strategies
  import opened CoreOptions
  import opened CoreCacheManager

  /** A clear that follows the update. */
  datatype ClearStep = ClearStep(strategy: ClearStrategy, ctx: ClearContext)

  /** What one call does once the method has resolved: nothing more, or the update, then
      possibly a clear. With `clearAndUpdateInParallel` both still run, update first. */
  datatype UpdatePlan = PassThrough | UpdateThenClear(strategy: UpdateStrategy, ctx: UpdateContext,
                                                      clear: Option<ClearStep>, parallel: bool)

  /** Disabled, a true noop, or no client at all: the method runs and nothing else happens. */
  predicate PassesThrough(options: CacheUpdateOptions, m: ManagerState, scope: Value, args: seq<Value>) {
    Disabled(m.options) || NoopHolds(options.noop, args, scope) || ClientOption(options.client, m.client).None?
  }

  /** The resolved client and fallback of a call, when it has a client. */
  function ResolvedClients(options: CacheUpdateOptions, m: ManagerState, scope: Value, args: seq<Value>)
    : (Option<MockAdapter>, Option<MockAdapter>)
  {
    var context := ContextToUse(m.options, scope);
    var client := ClientOption(options.client, m.client);
    var fallback := ClientOption(options.fallbackClient, m.fallbackClient);
    (if client.Some? then Some(GetCacheClient(client.value, args, context)) else None,
     if fallback.Some? then Some(GetCacheClient(fallback.value, args, context)) else None)
  }

  /** The stores a call may change. */
  function CallFrame(options: CacheUpdateOptions, m: ManagerState, scope: Value, args: seq<Value>): set<object> {
    var clients := ResolvedClients(options, m, scope, args);
    Stores(clients.0) + Stores(clients.1)
  }

  function KeysToClearOption(k: KeysToClear): Option<Spec<Key>> {
    if k.KeysToClear? then Some(k.spec) else None
  }

  /** `finalClearKey`: none for an explicit `null`, else the final key of `cacheKeysToClear`
      (the digest key when it is absent) with the decorator's hash key and no return value. */
  function FinalClearKey(options: CacheUpdateOptions, propertyKey: string, args: seq<Value>, context: Value,
                         digest: Digest): (k: Option<Key>)
    ensures k.None? <==> options.cacheKeysToClear.KeysToClearNull?
    ensures options.cacheKeysToClear.KeysToClearOmitted? ==>
              k == Some(GetFinalKey(None, options.hashKey, propertyKey, args, context, Undefined, digest))
    ensures options.cacheKeysToClear.KeysToClear? ==>
              k == Some(GetFinalKey(Some(options.cacheKeysToClear.spec), options.hashKey, propertyKey, args, context,
                                    Undefined, digest))
  {
    if options.cacheKeysToClear.KeysToClearNull? then None
    else Some(GetFinalKey(KeysToClearOption(options.cacheKeysToClear), options.hashKey, propertyKey, args, context,
                          Undefined, digest))
  }

  /** The manager's update strategy as an option of the decorator's kind. */
  function ManagerUpdateStrategy(m: ManagerOptions): Option<Spec<UpdateStrategy>> {
    if m.updateStrategy.Some? then Some(Literal(m.updateStrategy.value)) else None
  }

  /** The plan of one call whose method resolved with `result`. */
  function Plan(options: CacheUpdateOptions, m: ManagerState, propertyKey: string, original: Method,
                scope: Value, args: seq<Value>, result: Value, digest: Digest): (p: UpdatePlan)
    ensures p.PassThrough? <==> PassesThrough(options, m, scope, args)
    ensures p.UpdateThenClear? ==>
              && p.ctx.originalMethod == original && p.ctx.scope == scope && p.ctx.args == args
              && p.ctx.propertyKey == propertyKey && p.ctx.result == result
              && (Some(p.ctx.client), p.ctx.fallbackClient) == ResolvedClients(options, m, scope, args)
              && p.parallel == (options.clearAndUpdateInParallel == Some(true))
    ensures p.UpdateThenClear? ==>
              var clearKey := FinalClearKey(options, propertyKey, args, ContextToUse(m.options, scope), digest);
              && (p.clear.Some? <==> clearKey.Some? && KeyLength(clearKey.value) > 0)
              && (p.clear.Some? ==>
                    && p.clear.value.ctx.key == clearKey.value
                    && p.clear.value.ctx.client == Literal(p.ctx.client)
                    && OptionalSpecStores(p.clear.value.ctx.fallbackClient) == Stores(p.ctx.fallbackClient)
                    && p.clear.value.ctx.isPattern.None? && p.clear.value.ctx.hashesToClear.None?)
    ensures p.UpdateThenClear? && p.clear.Some? ==>
              p.clear.value.strategy == GetCacheClearStrategy(FirstGiven(options.clearStrategy, m.options.clearStrategy,
                                                                         Literal(DefaultClearStrategy)),
                                                              args, ContextToUse(m.options, scope))
  {
    if PassesThrough(options, m, scope, args) then PassThrough
    else
      var context := ContextToUse(m.options, scope);
      var clients := ResolvedClients(options, m, scope, args);
      var client := clients.0.value;
      var ctx := UpdateContext(
        original, scope, args, propertyKey, client, clients.1,
        GetFinalKey(options.cacheKey, options.hashKey, propertyKey, args, context, result, digest),
        EffectiveTTL(options.ttlSeconds, m.options.ttlSeconds, args, context),
        result);
      var strategy := GetCacheUpdateStrategy(FirstGiven(options.strategy, ManagerUpdateStrategy(m.options),
                                                        Literal(DefaultUpdateStrategy)), args, context, result);
      var clearKey := FinalClearKey(options, propertyKey, args, context, digest);
      var clearStrategy := GetCacheClearStrategy(FirstGiven(options.clearStrategy, m.options.clearStrategy,
                                                            Literal(DefaultClearStrategy)), args, context);
      var clear :=
        if clearKey.Some? && KeyLength(clearKey.value) > 0 then
          Some(ClearStep(clearStrategy, ClearContext(
            original, scope, args, propertyKey, Literal(client),
            if clients.1.Some? then Some(Literal(clients.1.value)) else None,
            clearKey.value, None, None)))
        else None;
      UpdateThenClear(strategy, ctx, clear, options.clearAndUpdateInParallel == Some(true))
  }

  /** The update key is computed with the method's result as the return value, and the TTL
      follows the same precedence as `Cacheable`. */
  lemma PostRunKey(options: CacheUpdateOptions, m: ManagerState, propertyKey: string, original: Method,
                   scope: Value, args: seq<Value>, result: Value, digest: Digest)
    requires Plan(options, m, propertyKey, original, scope, args, result, digest).UpdateThenClear?
    ensures var p := Plan(options, m, propertyKey, original, scope, args, result, digest);
            var context := ContextToUse(m.options, scope);
            && p.ctx.key == GetFinalKey(options.cacheKey, options.hashKey, propertyKey, args, context, result, digest)
            && (options.cacheKey.Some? && options.cacheKey.value.Builder? && options.hashKey.None? ==>
                  p.ctx.key == options.cacheKey.value.build(args, context, result))
            && p.ctx.ttl == EffectiveTTL(options.ttlSeconds, m.options.ttlSeconds, args, context)
  {
  }

  /** The decorator's update strategy, then the manager's, then the default; a builder receives
      the method's result. */
  lemma UpdateStrategyPrecedence(options: CacheUpdateOptions, m: ManagerState, propertyKey: string, original: Method,
                                 scope: Value, args: seq<Value>, result: Value, digest: Digest)
    requires Plan(options, m, propertyKey, original, scope, args, result, digest).UpdateThenClear?
    ensures var p := Plan(options, m, propertyKey, original, scope, args, result, digest);
            var context := ContextToUse(m.options, scope);
            && (options.strategy.Some? && options.strategy.value.Builder? ==>
                  p.strategy == options.strategy.value.build(args, context, result))
            && (options.strategy.Some? && options.strategy.value.Literal? ==> p.strategy == options.strategy.value.value)
            && (options.strategy.None? && m.options.updateStrategy.Some? ==> p.strategy == m.options.updateStrategy.value)
            && (options.strategy.None? && m.options.updateStrategy.None? ==> p.strategy == DefaultUpdateStrategy)
  {
  }

  /** With neither `cacheKey` nor `cacheKeysToClear` given and a hash key that is not a builder,
      the clear key is the very key just written, and the clear runs whenever that key is not
      empty (always, for a digest of 32 characters). */
  lemma OmittedKeysClearUpdatedKey(options: CacheUpdateOptions, m: ManagerState, propertyKey: string, original: Method,
                                   scope: Value, args: seq<Value>, result: Value, digest: Digest)
    requires options.cacheKey.None? && options.cacheKeysToClear.KeysToClearOmitted?
    requires options.hashKey.None? || options.hashKey.value.Literal?
    requires Plan(options, m, propertyKey, original, scope, args, result, digest).UpdateThenClear?
    ensures var p := Plan(options, m, propertyKey, original, scope, args, result, digest);
            && (p.clear.Some? <==> KeyLength(p.ctx.key) > 0)
            && (p.clear.Some? ==> p.clear.value.ctx.key == p.ctx.key)
            && (Md5Shaped(digest) ==> p.clear.Some?)
  {
    var context := ContextToUse(m.options, scope);
    var k := GetFinalKey(None, options.hashKey, propertyKey, args, context, Undefined, digest);
    assert k == GetFinalKey(None, options.hashKey, propertyKey, args, context, result, digest);
    assert k.KeyString?;
  }

  /** Hence, with the default strategies and a healthy client, such a call leaves the key it
      wrote absent from the client's store. */
  lemma OmittedKeysUndoTheWrite(p: UpdatePlan, before: Dict, fallbackBefore: Dict, mid: Dict, fallbackMid: Dict,
                                after: Dict, fallbackAfter: Dict, r: Outcome, updateTrace: seq<Event>,
                                clearTrace: seq<Event>)
    requires p.UpdateThenClear? && p.clear.Some? && p.clear.value.ctx.key == p.ctx.key && p.ctx.key.KeyString?
    requires p.strategy.DefaultUpdateStrategy? && p.clear.value.strategy.DefaultClearStrategy?
    requires p.clear.value.ctx.client == Literal(p.ctx.client) && p.clear.value.ctx.isPattern.None?
    requires !p.ctx.client.setFails && !p.ctx.client.delFails && before.Valid()
    requires UpdateHandledBy(p.strategy, p.ctx, before, fallbackBefore, mid, fallbackMid, r, updateTrace)
    requires ClearHandledBy(p.clear.value.strategy, p.clear.value.ctx, mid, fallbackMid, after, fallbackAfter,
                            Ok(Undefined), clearTrace)
    ensures mid == Put(before, p.ctx.key.name, p.ctx.result)
    ensures p.ctx.key.name !in after.values
  {
    PutKeepsValid(before, p.ctx.key.name, p.ctx.result);
    RemoveAllRemoves(mid, [p.ctx.key.name]);
  }

  /** One decorated method. */
  class CacheUpdate {
    const options: CacheUpdateOptions
    const propertyKey: string
    const originalMethod: Method
    const manager: CacheManager
    const digest: Digest

    constructor (options: CacheUpdateOptions, propertyKey: string, originalMethod: Method, manager: CacheManager,
                 digest: Digest)
      ensures this.options == options && this.propertyKey == propertyKey && this.originalMethod == originalMethod
      ensures this.manager == manager && this.digest == digest
    {
      this.options := options;
      this.propertyKey := propertyKey;
      this.originalMethod := originalMethod;
      this.manager := manager;
      this.digest := digest;
    }

    function CallPlan(scope: Value, args: seq<Value>, result: Value): UpdatePlan
      reads manager
    {
      Plan(options, manager.State(), propertyKey, originalMethod, scope, args, result, digest)
    }

    function Frame(scope: Value, args: seq<Value>): set<object>
      reads manager
    {
      CallFrame(options, manager.State(), scope, args)
    }

    /** The decorated method. The method runs exactly once and first; a pass-through or a
        rejection ends the call there with the method's outcome and no store work. Otherwise
        the update takes the stores to `mid` and `fallbackMid`, the clear (if any) starts from
        there, and the caller gets the update strategy's result. */
    method Call(scope: Value, args: seq<Value>)
      returns (r: Outcome, ghost trace: seq<Event>, ghost updateTrace: seq<Event>, ghost clearTrace: seq<Event>,
               ghost mid: Dict, ghost fallbackMid: Dict)
      modifies Frame(scope, args)
      ensures var run := originalMethod(scope, args);
              (old(PassesThrough(options, manager.State(), scope, args)) || run.Err?) ==>
                var clients := ResolvedClients(options, old(manager.State()), scope, args);
                && r == run && trace == [Ran(scope, args)]
                && StoreCache(clients.0) == old(StoreCache(clients.0)) && StoreCache(clients.1) == old(StoreCache(clients.1))
      ensures var run := originalMethod(scope, args);
              !old(PassesThrough(options, manager.State(), scope, args)) && run.Ok? ==>
                var p := old(CallPlan(scope, args, run.value));
                && p.UpdateThenClear?
                && trace == [Ran(scope, args)] + updateTrace + clearTrace
                && UpdateHandledBy(p.strategy, p.ctx, old(p.ctx.client.cache), old(StoreCache(p.ctx.fallbackClient)),
                                   mid, fallbackMid, r, updateTrace)
                && (p.clear.None? ==>
                      clearTrace == [] && p.ctx.client.cache == mid && StoreCache(p.ctx.fallbackClient) == fallbackMid)
                && (p.clear.Some? ==>
                      ClearHandledBy(p.clear.value.strategy, p.clear.value.ctx, mid, fallbackMid,
                                     p.ctx.client.cache, StoreCache(p.ctx.fallbackClient), Ok(Undefined), clearTrace))
    {
      var run := originalMethod(scope, args);
      trace, updateTrace, clearTrace := [Ran(scope, args)], [], [];
      mid, fallbackMid := EmptyDict, EmptyDict;
      if PassesThrough(options, manager.State(), scope, args) || run.Err? {
        r := run;
        return;
      }
      var p := CallPlan(scope, args, run.value);
      r, updateTrace := HandleUpdate(p.strategy, p.ctx);
      mid, fallbackMid := p.ctx.client.cache, StoreCache(p.ctx.fallbackClient);
      if p.clear.Some? {
        var cleared;
        cleared, clearTrace := HandleClear(p.clear.value.strategy, p.clear.value.ctx);
        ClearNeverRejects(p.clear.value.strategy, p.clear.value.ctx, mid, fallbackMid,
                          p.ctx.client.cache, StoreCache(p.ctx.fallbackClient), cleared, clearTrace);
      }
      trace := trace + updateTrace + clearTrace;
    }
  }
}
