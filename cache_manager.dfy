/** The manager singleton of packages/core/lib/cache-manager.ts. */
module CoreCacheManager {
  import opened JsValue
  import opened Builders
  import opened MockStore
  import opened DefaultRead
  import opened Strategies
  import opened CoreOptions

  class CacheManager {
    var client: Option<MockAdapter>
    var fallbackClient: Option<MockAdapter>
    var options: ManagerOptions

    /** No clients; not disabled, context excluded, TTL 0, no debug, and one default strategy
        of each kind, the read strategy with empty pending maps. */
    constructor ()
      ensures client == None && fallbackClient == None
      ensures options.disabled == Some(false) && options.excludeContext == Some(true)
      ensures options.ttlSeconds == Some(0) && options.debug == Some(false)
      ensures options.clearStrategy == Some(Literal(DefaultClearStrategy))
      ensures options.updateStrategy == Some(DefaultUpdateStrategy)
      ensures options.strategy.Some? && options.strategy.value.Literal?
      ensures options.strategy.value.value.DefaultReadStrategy?
      ensures fresh(options.strategy.value.value.instance)
      ensures options.strategy.value.value.instance.pendingCacheRequests == map[]
      ensures options.strategy.value.value.instance.pendingMethodCalls == map[]
    {
      client := None;
      fallbackClient := None;
      var read := new DefaultStrategy();
      options := ManagerOptions(Some(false), Some(true), Some(0), Some(false),
                                Some(Literal(DefaultClearStrategy)), Some(Literal(DefaultReadStrategy(read))),
                                Some(DefaultUpdateStrategy));
    }

    /** What a decorator call reads from the manager. */
    function State(): ManagerState
      reads this
    {
      ManagerState(client, fallbackClient, options)
    }

    /** Stores the client and, when `ttlSeconds` is falsy, copies the client's TTL into the
        options; the fallback is left alone. Afterwards the TTL is truthy. */
    method SetClient(c: MockAdapter)
      modifies this
      ensures client == Some(c) && fallbackClient == old(fallbackClient)
      ensures options == if NumberTruthy(old(options.ttlSeconds)) then old(options)
                         else old(options).(ttlSeconds := Some(c.ClientTTL))
      ensures NumberTruthy(options.ttlSeconds)
    {
      client := Some(c);
      if !NumberTruthy(options.ttlSeconds) {
        options := options.(ttlSeconds := Some(c.ClientTTL));
      }
    }

    method SetFallbackClient(c: MockAdapter)
      modifies this
      ensures fallbackClient == Some(c) && client == old(client) && options == old(options)
    {
      fallbackClient := Some(c);
    }

    /** Replaces the options wholesale. */
    method SetOptions(o: ManagerOptions)
      modifies this
      ensures options == o && client == old(client) && fallbackClient == old(fallbackClient)
    {
      options := o;
    }

    method Disable()
      modifies this
      ensures options == old(options).(disabled := Some(true))
      ensures client == old(client) && fallbackClient == old(fallbackClient)
    {
      options := options.(disabled := Some(true));
    }

    method Enable()
      modifies this
      ensures options == old(options).(disabled := Some(false))
      ensures client == old(client) && fallbackClient == old(fallbackClient)
    {
      options := options.(disabled := Some(false));
    }
  }
}

/** The older manager of packages/core/lib/CacheManager.ts: a client and options only. */
module EarlierCacheManager {
  import opened JsValue
  import opened MockStore
  import opened CoreOptions

  class CacheManager {
    var client: Option<MockAdapter>
    var options: ManagerOptions

    /** No client; context excluded, TTL 0, no debug, nothing else set. */
    constructor ()
      ensures client == None
      ensures options == ManagerOptions(None, Some(true), Some(0), Some(false), None, None, None)
    {
      client := None;
      options := ManagerOptions(None, Some(true), Some(0), Some(false), None, None, None);
    }

    /** Stores the client and copies its TTL when `ttlSeconds` is falsy. */
    method SetClient(c: MockAdapter)
      modifies this
      ensures client == Some(c)
      ensures options == if NumberTruthy(old(options.ttlSeconds)) then old(options)
                         else old(options).(ttlSeconds := Some(c.ClientTTL))
      ensures NumberTruthy(options.ttlSeconds)
    {
      client := Some(c);
      if !NumberTruthy(options.ttlSeconds) {
        options := options.(ttlSeconds := Some(c.ClientTTL));
      }
    }

    method SetOptions(o: ManagerOptions)
      modifies this
      ensures options == o && client == old(client)
    {
      options := o;
    }
  }
}
