/** The root package's `Cacheable` decorator, lib/decorators/Cacheable.ts: an inline
    read-through over one client, with the deserializer chosen per hit. */
module LegacyCacheable {
  import opened JsValue
  import opened Builders
  import opened CacheKey
  import opened MockStore
  import opened StrategyContexts
  import opened CoreOptions
  import opened LegacyKey
  import LM = LegacyCacheManager

  /** `options.deserializer`: absent, `false`, or a function. A deserializer that throws
      yields `Err`. */
  datatype DeserializerOption = DeserializerOmitted | DeserializerFalse | DeserializerFn(f: Value -> Try<Value>)

  /** The options the root package's `Cacheable` and `CacheField` read. */
  datatype LegacyCacheOptions = LegacyCacheOptions(
    cacheKey: Option<Spec<string>>,
    hashKey: Option<Spec<string>>,
    client: Option<MockAdapter>,
    noop: Option<Spec<bool>>,
    ttlSeconds: Option<Spec<int>>,
    deserializer: DeserializerOption,
    fieldKey: Option<Spec<string>>)

  /** `options && options.client ? options.client : cacheManager.client` */
  function ClientFor(options: Option<LegacyCacheOptions>, manager: Option<MockAdapter>): (c: Option<MockAdapter>)
    ensures c.Some? <==> (options.Some? && options.value.client.Some?) || manager.Some?
    ensures options.Some? && options.value.client.Some? ==> c == options.value.client
  {
    if options.Some? && options.value.client.Some? then options.value.client else manager
  }

  /** `options && options.cacheKey`, `options && options.hashKey`, `options && options.ttlSeconds` */
  function CacheKeyOf(options: Option<LegacyCacheOptions>): Option<Spec<string>> {
    if options.Some? then options.value.cacheKey else None
  }

  function HashKeyOf(options: Option<LegacyCacheOptions>): Option<Spec<string>> {
    if options.Some? then options.value.hashKey else None
  }

  function TTLOf(options: Option<LegacyCacheOptions>): Option<Spec<int>> {
    if options.Some? then options.value.ttlSeconds else None
  }

  /** An outcome that a `catch` turns into a miss. */
  function Caught(t: Try<Value>): Option<Value> {
    if t.Ok? then Some(t.value) else None
  }

  /** What a cached value becomes: `Some(v)` is returned to the caller, `None` falls through
      to the miss path. Without options, or with `deserializer: false`, the raw value is
      returned. A function deserializer, else a client's non-null `defaultDeserializer`, is
      applied, and its failure is caught. A client without the property fails to call it. */
  function Deserialize(options: Option<LegacyCacheOptions>, d: ClientDeserializer, cached: Value): (r: Option<Value>)
    ensures options.None? || options.value.deserializer.DeserializerFalse? ==> r == Some(cached)
    ensures options.Some? && options.value.deserializer.DeserializerFn? ==>
              r == Caught(options.value.deserializer.f(cached))
    ensures options.Some? && options.value.deserializer.DeserializerOmitted? ==>
              (r.Some? <==> d.DeserializeWith? && d.f(cached).Ok?) &&
              (r.Some? ==> r.value == d.f(cached).value)
  {
    if options.None? then Some(cached)
    else
      match options.value.deserializer
      case DeserializerFalse => Some(cached)
      case DeserializerFn(f) => Caught(f(cached))
      case DeserializerOmitted =>
        match d
        case NullDeserializer => None
        case NoDeserializerProperty => Caught(Err(TypeError))
        case DeserializeWith(g) => Caught(g(cached))
  }

  /** The read step: a rejected `get` or a `null`/`undefined` value is a miss; anything else
      is a hit exactly when deserialising it does not fall through. */
  function CachedRead(options: Option<LegacyCacheOptions>, got: Outcome, d: ClientDeserializer): (hit: Option<Value>)
    ensures got.Err? ==> hit.None?
    ensures got.Ok? && Nullish(got.value) ==> hit.None?
    ensures got.Ok? && !Nullish(got.value) ==> hit == Deserialize(options, d, got.value)
  {
    if got.Ok? && !Nullish(got.value) then Deserialize(options, d, got.value) else None
  }

  /** A value stored by a healthy client is read back as a hit on the same key when it is
      returned raw: the next call with the same key does not run the method. */
  lemma RepeatedCallHits(options: Option<LegacyCacheOptions>, before: Dict, key: string, v: Value, d: ClientDeserializer)
    requires options.None? || options.value.deserializer.DeserializerFalse?
    requires !Nullish(v)
    ensures CachedRead(options, Ok(Lookup(AfterSet(before, false, KeyString(key), v), key)), d) == Some(v)
  {
    PutThenLookup(before, key, v, key);
  }

  /** Without that, a value is read back only through a deserializer that accepts it. */
  lemma DefaultDeserializerDecides(options: Option<LegacyCacheOptions>, cached: Value, d: ClientDeserializer)
    requires options.Some? && options.value.deserializer.DeserializerOmitted?
    requires !Nullish(cached)
    ensures CachedRead(options, Ok(cached), d).Some? <==> d.DeserializeWith? && d.f(cached).Ok?
    ensures d.NullDeserializer? || d.NoDeserializerProperty? ==> CachedRead(options, Ok(cached), d) == None
  {
  }

  /** The methods of one decorated class share one singleton. */
  class Cacheable {
    const options: Option<LegacyCacheOptions>
    const propertyKey: string
    const originalMethod: Method
    const manager: LM.CacheManager
    const digest: Digest

    constructor (options: Option<LegacyCacheOptions>, propertyKey: string, originalMethod: Method,
                 manager: LM.CacheManager, digest: Digest)
      ensures this.options == options && this.propertyKey == propertyKey && this.originalMethod == originalMethod
      ensures this.manager == manager && this.digest == digest
    {
      this.options := options;
      this.propertyKey := propertyKey;
      this.originalMethod := originalMethod;
      this.manager := manager;
      this.digest := digest;
    }

    function CallClient(): Option<MockAdapter>
      reads manager
    {
      ClientFor(options, manager.client)
    }

    /** The final key, built with `contextToUse`. */
    function CallKey(scope: Value, args: seq<Value>): string
      reads manager
    {
      FinalKey(CacheKeyOf(options), HashKeyOf(options), propertyKey, args, ContextToUse(manager.options, scope), digest)
    }

    /** The decorator's truthy TTL, else the manager's truthy TTL, else none. */
    function CallTTL(scope: Value, args: seq<Value>): Option<int>
      reads manager
    {
      EffectiveTTL(TTLOf(options), manager.options.ttlSeconds, args, ContextToUse(manager.options, scope))
    }

    /** The decorated method. Without a client it only runs the method (noop or not). With one:
        a hit is returned without running the method; otherwise the method runs once, its
        error reaches the caller with nothing written, and its value is `set` under the key,
        a failed `set` being swallowed. */
    method Call(scope: Value, args: seq<Value>) returns (r: Outcome, ghost trace: seq<Event>)
      modifies Stores(CallClient())
      ensures var c := old(CallClient());
              c.None? ==> r == originalMethod(scope, args) && trace == [Ran(scope, args)]
      ensures var c := old(CallClient());
              c.Some? ==>
                var key := KeyString(old(CallKey(scope, args)));
                var hit := CachedRead(options, old(c.value.GetOutcome(key)), c.value.defaultDeserializer);
                var run := originalMethod(scope, args);
                var get := Called(c.value, GetCall(key, None));
                && (old(c.value.Valid()) ==> c.value.Valid())
                && (hit.Some? ==> r == Ok(hit.value) && trace == [get] && c.value.cache == old(c.value.cache))
                && (hit.None? ==> r == run)
                && (hit.None? && run.Err? ==> trace == [get, Ran(scope, args)] && c.value.cache == old(c.value.cache))
                && (hit.None? && run.Ok? ==>
                      && trace == [get, Ran(scope, args), Called(c.value, SetCall(key, run.value, old(CallTTL(scope, args))))]
                      && c.value.cache == AfterSet(old(c.value.cache), c.value.setFails, key, run.value))
    {
      var client := CallClient();
      if client.None? {
        r := originalMethod(scope, args);
        trace := [Ran(scope, args)];
        return;
      }
      var c := client.value;
      var key := KeyString(CallKey(scope, args));
      var got, getCall := c.Get(key, None);
      trace := [Called(c, getCall)];
      var hit := CachedRead(options, got, c.defaultDeserializer);
      if hit.Some? {
        r := Ok(hit.value);
        return;
      }
      r := originalMethod(scope, args);
      trace := trace + [Ran(scope, args)];
      if r.Err? {
        return;
      }
      var ttl := CallTTL(scope, args);
      var stored, setCall := c.Set(key, r.value, ttl);
      trace := trace + [Called(c, setCall)];
    }
  }
}
