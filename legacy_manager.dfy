/** The root package's configuration singleton, lib/CacheManager.ts. Its options use the same
    record as the newer manager; only `excludeContext`, `ttlSeconds` and `debug` are read. */
module LegacyCacheManager {
  import opened JsValue
  import opened MockStore
  import opened CoreOptions

  /** `{ ttlSeconds: 0 }` */
  const InitialOptions: ManagerOptions := ManagerOptions(None, None, Some(0), None, None, None, None)

  class CacheManager {
    var client: Option<MockAdapter>
    var options: ManagerOptions

    /** No client, and options holding only a zero TTL. */
    constructor ()
      ensures client == None && options == InitialOptions
    {
      client := None;
      options := InitialOptions;
    }

    /** Stores the client and nothing else: no TTL is copied. */
    method SetClient(c: MockAdapter)
      modifies this
      ensures client == Some(c) && options == old(options)
    {
      client := Some(c);
    }

    /** Replaces the options wholesale; the client stays. */
    method SetOptions(o: ManagerOptions)
      modifies this
      ensures options == o && client == old(client)
    {
      options := o;
    }
  }

  /** With the initial options builders see the receiver, and no manager TTL applies. */
  lemma InitialOptionsKeepContextAndNoTTL(scope: Value)
    ensures ContextToUse(InitialOptions, scope) == scope
    ensures !NumberTruthy(InitialOptions.ttlSeconds)
    ensures forall args: seq<Value>, context: Value ::
              EffectiveTTL(None, InitialOptions.ttlSeconds, args, context) == None
  {
  }
}
