/** The root package's `CacheClear` decorator, lib/decorators/CacheClear.ts: the client is fixed
    when the decorator is created, a missing one is an error at decoration time, and each call
    runs the method and then deletes one key. */
module LegacyCacheClear {
  import opened JsValue
  import opened Builders
  import opened CacheKey
  import opened MockStore
  import opened StrategyContexts
  import opened CoreOptions
  import opened LegacyKey
  import opened LegacyCacheable
  import LM = LegacyCacheManager

  /** CacheClearOptions of the root package. */
  datatype LegacyClearOptions = LegacyClearOptions(
    cacheKey: Option<Spec<string>>,
    hashKey: Option<Spec<string>>,
    client: Option<MockAdapter>,
    noop: Option<bool>)

  /** `options && options.client ? options.client : cacheManager.client`, read once. */
  function FactoryClient(options: Option<LegacyClearOptions>, manager: Option<MockAdapter>): (c: Option<MockAdapter>)
    ensures c.Some? <==> (options.Some? && options.value.client.Some?) || manager.Some?
    ensures options.Some? && options.value.client.Some? ==> c == options.value.client
  {
    if options.Some? && options.value.client.Some? then options.value.client else manager
  }

  /** The message of `new MissingClientError(propertyKey)`. */
  function MissingClientError(propertyKey: string): Value {
    Str("Missing cache client for " + propertyKey)
  }

  /** What decorating throws: an error exactly when there is no client and `noop` is not set. */
  function DecorationError(options: Option<LegacyClearOptions>, client: Option<MockAdapter>, propertyKey: string): (e: Option<Value>)
    ensures e.Some? <==> client.None? && !(options.Some? && options.value.noop == Some(true))
    ensures e.Some? ==> e.value == MissingClientError(propertyKey)
  {
    if client.None? && (options.None? || options.value.noop != Some(true)) then Some(MissingClientError(propertyKey))
    else None
  }

  /** A decorated method. */
  class CacheClear {
    const options: Option<LegacyClearOptions>
    const client: Option<MockAdapter>
    const propertyKey: string
    const originalMethod: Method
    const digest: Digest

    constructor (options: Option<LegacyClearOptions>, client: Option<MockAdapter>, propertyKey: string,
                 originalMethod: Method, digest: Digest)
      requires DecorationError(options, client, propertyKey).None?
      ensures this.options == options && this.client == client && this.propertyKey == propertyKey
      ensures this.originalMethod == originalMethod && this.digest == digest
    {
      this.options := options;
      this.client := client;
      this.propertyKey := propertyKey;
      this.originalMethod := originalMethod;
      this.digest := digest;
    }

    /** The key to delete, built with the receiver itself (not `contextToUse`). */
    function CallKey(scope: Value, args: seq<Value>): string {
      FinalKey(if options.Some? then options.value.cacheKey else None,
               if options.Some? then options.value.hashKey else None,
               propertyKey, args, scope, digest)
    }

    /** The decorated method: without a client it only runs the method. With one the method
        runs first; its error reaches the caller and nothing is deleted. After a value, exactly
        one `del` of the key follows, whose failure reaches the caller instead of the value. */
    method Call(scope: Value, args: seq<Value>) returns (r: Outcome, ghost trace: seq<Event>)
      modifies Stores(client)
      ensures client.None? ==> r == originalMethod(scope, args) && trace == [Ran(scope, args)]
      ensures client.Some? ==>
                var c := client.value;
                var run := originalMethod(scope, args);
                var key := CallKey(scope, args);
                && (old(c.Valid()) ==> c.Valid())
                && (run.Err? ==> r == run && trace == [Ran(scope, args)] && c.cache == old(c.cache))
                && (run.Ok? ==> trace == [Ran(scope, args), Called(c, DelCall(KeyString(key)))])
                && (run.Ok? && c.delFails ==> r == Err(MockFailure) && c.cache == old(c.cache))
                && (run.Ok? && !c.delFails ==> r == run && c.cache == RemoveAll(old(c.cache), [key]))
    {
      r := originalMethod(scope, args);
      trace := [Ran(scope, args)];
      if client.None? || r.Err? {
        return;
      }
      var c := client.value;
      var deleted, delCall := c.Del(KeyString(CallKey(scope, args)));
      trace := trace + [Called(c, delCall)];
      if deleted.Err? {
        r := deleted;
      }
    }
  }

  /** Decorating: the client is read from the options or the manager at this moment; with
      neither and no `noop`, decorating fails with the missing-client error. */
  method Decorate(options: Option<LegacyClearOptions>, manager: LM.CacheManager, propertyKey: string,
                  originalMethod: Method, digest: Digest) returns (r: Try<CacheClear>)
    ensures var client := FactoryClient(options, old(manager.client));
            && (r.Err? <==> DecorationError(options, client, propertyKey).Some?)
            && (r.Err? ==> r.error == MissingClientError(propertyKey))
            && (r.Ok? ==> fresh(r.value) && r.value.client == client && r.value.options == options
                            && r.value.propertyKey == propertyKey && r.value.originalMethod == originalMethod
                            && r.value.digest == digest)
  {
    var client := FactoryClient(options, manager.client);
    var e := DecorationError(options, client, propertyKey);
    if e.Some? {
      r := Err(e.value);
    } else {
      var decorated := new CacheClear(options, client, propertyKey, originalMethod, digest);
      r := Ok(decorated);
    }
  }

  /** The key this decorator deletes is the key `Cacheable` reads and writes for the same key
      options, as long as the manager does not exclude the context. */
  lemma SameKeyAsCacheable(read: LegacyCacheOptions, clear: LegacyClearOptions, m: ManagerOptions,
                           propertyKey: string, args: seq<Value>, scope: Value, digest: Digest)
    requires read.cacheKey == clear.cacheKey && read.hashKey == clear.hashKey
    requires m.excludeContext != Some(true)
    ensures FinalKey(CacheKeyOf(Some(read)), HashKeyOf(Some(read)), propertyKey, args, ContextToUse(m, scope), digest)
            == FinalKey(clear.cacheKey, clear.hashKey, propertyKey, args, scope, digest)
  {
  }

  /** After a successful delete of a key, reading that key is a miss. */
  lemma ClearedKeyMisses(options: Option<LegacyCacheOptions>, before: Dict, key: string, d: ClientDeserializer)
    ensures Lookup(RemoveAll(before, [key]), key) == Undefined
    ensures CachedRead(options, Ok(Lookup(RemoveAll(before, [key]), key)), d) == None
  {
    assert [key][..0] == [];
  }
}
