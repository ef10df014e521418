/** Options that are given either as a literal or as a builder function of the call. */
module Builders {
  import opened JsValue

  /** A literal, or a builder called with `(args, context, returnValue)`. A builder that
      JavaScript calls with fewer arguments receives `undefined` for the missing ones. */
  datatype Spec<T> = Literal(value: T) | Builder(build: (seq<Value>, Value, Value) -> T)

  /** `spec instanceof Function ? spec(args, context, returnValue) : spec` */
  function Resolve<T>(spec: Spec<T>, args: seq<Value>, context: Value, returnValue: Value): (r: T)
    ensures spec.Literal? ==> r == spec.value
    ensures spec.Builder? ==> r == spec.build(args, context, returnValue)
  {
    match spec
    case Literal(v) => v
    case Builder(f) => f(args, context, returnValue)
  }

  /** Truthiness of a numeric option such as `ttlSeconds`: a function is always truthy. */
  predicate NumberSpecTruthy(spec: Spec<int>) {
    spec.Builder? || spec.value != 0
  }
}

/** The literal-or-builder resolvers of packages/core/lib/util and lib/util/determineOp.ts. */
module Resolvers {
  import opened JsValue
  import opened Builders

  /** get-ttl.ts: the builder receives `(args, context)` only. */
  function GetTTL(passedInTTL: Spec<int>, args: seq<Value>, context: Value): (ttl: int)
    ensures passedInTTL.Literal? ==> ttl == passedInTTL.value
    ensures passedInTTL.Builder? ==> ttl == passedInTTL.build(args, context, Undefined)
  {
    Resolve(passedInTTL, args, context, Undefined)
  }

  /** getCacheStrategy.ts: a strategy object is returned as the same instance. */
  function GetCacheStrategy<S>(passed: Spec<S>, args: seq<Value>, context: Value): (s: S)
    ensures passed.Literal? ==> s == passed.value
    ensures passed.Builder? ==> s == passed.build(args, context, Undefined)
  {
    Resolve(passed, args, context, Undefined)
  }

  /** get-cache-clear-strategy.ts: no return value reaches the builder. */
  function GetCacheClearStrategy<S>(passed: Spec<S>, args: seq<Value>, context: Value): (s: S)
    ensures passed.Literal? ==> s == passed.value
    ensures passed.Builder? ==> s == passed.build(args, context, Undefined)
  {
    Resolve(passed, args, context, Undefined)
  }

  /** get-cache-update-strategy.ts: the builder also receives the method's return value. */
  function GetCacheUpdateStrategy<S>(passed: Spec<S>, args: seq<Value>, context: Value, returnValue: Value): (s: S)
    ensures passed.Literal? ==> s == passed.value
    ensures passed.Builder? ==> s == passed.build(args, context, returnValue)
  {
    Resolve(passed, args, context, returnValue)
  }

  /** get-cache-client.ts (used by CacheUpdate). */
  function GetCacheClient<C>(passed: Spec<C>, args: seq<Value>, context: Value): (c: C)
    ensures passed.Literal? ==> c == passed.value
    ensures passed.Builder? ==> c == passed.build(args, context, Undefined)
  {
    Resolve(passed, args, context, Undefined)
  }

  /** getCacheClient.ts, the twin used by Cacheable. */
  function GetCacheClientForCacheable<C>(passed: Spec<C>, args: seq<Value>, context: Value): (c: C)
    ensures passed.Literal? ==> c == passed.value
    ensures passed.Builder? ==> c == passed.build(args, context, Undefined)
  {
    match passed
    case Literal(client) => client
    case Builder(f) => f(args, context, Undefined)
  }

  /** The two client resolvers agree on every input. */
  lemma CacheClientTwinsAgree<C>(passed: Spec<C>, args: seq<Value>, context: Value)
    ensures GetCacheClient(passed, args, context) == GetCacheClientForCacheable(passed, args, context)
  {
  }

  /** determineOp.ts: whether a call is a no-op. */
  function DetermineOp(noop: Spec<bool>, args: seq<Value>, context: Value): (skip: bool)
    ensures noop.Literal? ==> skip == noop.value
    ensures noop.Builder? ==> skip == noop.build(args, context, Undefined)
  {
    Resolve(noop, args, context, Undefined)
  }
}
