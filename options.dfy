/** The option objects of packages/core/lib/interfaces (cache-options.ts, cache-clear-options.ts,
    cache-update-options.ts, cache-manager-options.ts) and the precedence rules the decorators
    share. An absent property is `None`; an absent options object is one with every property
    absent. */
module CoreOptions {
  import opened JsValue
  import opened Builders
  import opened Resolvers
  import opened MockStore
  import opened Strategies

  /** CacheOptions; `isCacheable` is not read by the modelled strategies. */
  datatype CacheOptions = CacheOptions(
    cacheKey: Option<Spec<Key>>,
    hashKey: Option<Spec<Key>>,
    client: Option<Spec<MockAdapter>>,
    fallbackClient: Option<Spec<MockAdapter>>,
    noop: Option<Spec<bool>>,
    ttlSeconds: Option<Spec<int>>,
    strategy: Option<Spec<ReadStrategy>>)

  datatype CacheClearOptions = CacheClearOptions(
    cacheKey: Option<Spec<Key>>,
    hashKey: Option<Spec<Key>>,
    client: Option<Spec<MockAdapter>>,
    fallbackClient: Option<Spec<MockAdapter>>,
    noop: Option<Spec<bool>>,
    isPattern: Option<bool>,
    strategy: Option<Spec<ClearStrategy>>)

  /** `cacheKeysToClear`: absent, explicitly `null`, or a key, key list or builder. */
  datatype KeysToClear = KeysToClearOmitted | KeysToClearNull | KeysToClear(spec: Spec<Key>)

  datatype CacheUpdateOptions = CacheUpdateOptions(
    cacheKey: Option<Spec<Key>>,
    cacheKeysToClear: KeysToClear,
    hashKey: Option<Spec<Key>>,
    client: Option<Spec<MockAdapter>>,
    fallbackClient: Option<Spec<MockAdapter>>,
    noop: Option<Spec<bool>>,
    ttlSeconds: Option<Spec<int>>,
    strategy: Option<Spec<UpdateStrategy>>,
    clearStrategy: Option<Spec<ClearStrategy>>,
    clearAndUpdateInParallel: Option<bool>)

  /** CacheManagerOptions. */
  datatype ManagerOptions = ManagerOptions(
    disabled: Option<bool>,
    excludeContext: Option<bool>,
    ttlSeconds: Option<int>,
    debug: Option<bool>,
    clearStrategy: Option<Spec<ClearStrategy>>,
    strategy: Option<Spec<ReadStrategy>>,
    updateStrategy: Option<UpdateStrategy>)

  /** What a decorator reads from the manager singleton at call time. */
  datatype ManagerState = ManagerState(client: Option<MockAdapter>, fallbackClient: Option<MockAdapter>,
                                       options: ManagerOptions)

  predicate Disabled(m: ManagerOptions) {
    m.disabled == Some(true)
  }

  /** A numeric option is truthy when present and non-zero. */
  predicate NumberTruthy(n: Option<int>) {
    n.Some? && n.value != 0
  }

  /** `!cacheManager.options.excludeContext ? this : undefined` */
  function ContextToUse(m: ManagerOptions, scope: Value): Value {
    if m.excludeContext == Some(true) then Undefined else scope
  }

  /** `options && options.noop && determineOp(options.noop, args, this)`: the receiver itself,
      never the context builders see, decides. */
  predicate NoopHolds(noop: Option<Spec<bool>>, args: seq<Value>, scope: Value) {
    noop.Some? && DetermineOp(noop.value, args, scope)
  }

  /** `options && options.client ? options.client : cacheManager.client`; a client option is an
      object or a function, so it is truthy whenever present. */
  function ClientOption(decorator: Option<Spec<MockAdapter>>, manager: Option<MockAdapter>): Option<Spec<MockAdapter>> {
    if decorator.Some? then decorator else if manager.Some? then Some(Literal(manager.value)) else None
  }

  /** `options && options.ttlSeconds ? getTTL(options.ttlSeconds, args, context)
      : cacheManager.options.ttlSeconds || undefined` */
  function EffectiveTTL(decorator: Option<Spec<int>>, manager: Option<int>, args: seq<Value>, context: Value): (ttl: Option<int>)
    ensures decorator.Some? && NumberSpecTruthy(decorator.value) ==> ttl == Some(GetTTL(decorator.value, args, context))
    ensures !(decorator.Some? && NumberSpecTruthy(decorator.value)) ==> ttl == (if NumberTruthy(manager) then manager else None)
    ensures ttl == Some(0) ==> decorator.Some? && decorator.value.Builder?
  {
    if decorator.Some? && NumberSpecTruthy(decorator.value) then Some(GetTTL(decorator.value, args, context))
    else if NumberTruthy(manager) then manager
    else None
  }

  /** `decoratorOption || managerOption || fallback` for options that are truthy when present. */
  function FirstGiven<T>(decorator: Option<T>, manager: Option<T>, fallback: T): T {
    if decorator.Some? then decorator.value else if manager.Some? then manager.value else fallback
  }

  /** Builders see the receiver only when `excludeContext` is not set. */
  lemma ContextOnlyWithoutExclusion(m: ManagerOptions, scope: Value)
    ensures ContextToUse(m, scope) == scope || ContextToUse(m, scope) == Undefined
    ensures m.excludeContext == Some(true) ==> ContextToUse(m, scope) == Undefined
    ensures m.excludeContext != Some(true) ==> ContextToUse(m, scope) == scope
  {
  }

  /** Decorator, then manager, then the default; a present option always wins. */
  lemma FirstGivenPrecedence<T>(decorator: Option<T>, manager: Option<T>, fallback: T)
    ensures decorator.Some? ==> FirstGiven(decorator, manager, fallback) == decorator.value
    ensures decorator.None? && manager.Some? ==> FirstGiven(decorator, manager, fallback) == manager.value
    ensures decorator.None? && manager.None? ==> FirstGiven(decorator, manager, fallback) == fallback
  {
  }
}
