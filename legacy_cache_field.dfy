/** The root package's `CacheField` decorator, lib/decorators/CacheField.ts: a read of one
    field of a hashed key that falls back to running the method and never writes. */
module LegacyCacheField {
  import opened JsValue
  import opened Builders
  import opened CacheKey
  import opened MockStore
  import opened CoreOptions
  import opened LegacyKey
  import opened LegacyCacheable
  import LM = LegacyCacheManager

  /** The field to read: a truthy `fieldKey` option resolved against `(args, context)`, used
      only when what it resolves to is non-empty; otherwise none (`null`). */
  function FieldFor(options: Option<LegacyCacheOptions>, args: seq<Value>, context: Value): (field: Option<string>)
    ensures field.Some? ==> field.value != ""
    ensures field.Some? ==> options.Some? && options.value.fieldKey.Some?
    ensures options.Some? && options.value.fieldKey.Some? && options.value.fieldKey.value.Literal? ==>
              field == (var s := options.value.fieldKey.value.value; if s != "" then Some(s) else None)
    ensures options.Some? && options.value.fieldKey.Some? && options.value.fieldKey.value.Builder? ==>
              field == (var s := options.value.fieldKey.value.build(args, context, Undefined); if s != "" then Some(s) else None)
  {
    if options.Some? && options.value.fieldKey.Some? && StringSpecTruthy(options.value.fieldKey.value) then
      var s := Resolve(options.value.fieldKey.value, args, context, Undefined);
      if s != "" then Some(s) else None
    else None
  }

  class CacheField {
    const options: Option<LegacyCacheOptions>
    const propertyKey: string
    const originalMethod: Method
    const manager: LM.CacheManager
    const digest: Digest

    constructor (options: Option<LegacyCacheOptions>, propertyKey: string, originalMethod: Method,
                 manager: LM.CacheManager, digest: Digest)
      ensures this.options == options && this.propertyKey == propertyKey && this.originalMethod == originalMethod
      ensures this.manager == manager && this.digest == digest
    {
      this.options := options;
      this.propertyKey := propertyKey;
      this.originalMethod := originalMethod;
      this.manager := manager;
      this.digest := digest;
    }

    function CallClient(): Option<MockAdapter>
      reads manager
    {
      ClientFor(options, manager.client)
    }

    function CallKey(scope: Value, args: seq<Value>): string
      reads manager
    {
      FinalKey(CacheKeyOf(options), HashKeyOf(options), propertyKey, args, ContextToUse(manager.options, scope), digest)
    }

    function CallField(scope: Value, args: seq<Value>): Option<string>
      reads manager
    {
      FieldFor(options, args, ContextToUse(manager.options, scope))
    }

    /** The decorated method. It changes no store. Without a client it only runs the method;
        with one, a hit (by the same rules as `Cacheable`) is returned without running the
        method, and anything else, a failed `get` included, returns the method's outcome. */
    method Call(scope: Value, args: seq<Value>) returns (r: Outcome, ghost trace: seq<Event>)
      ensures CallClient().None? ==> r == originalMethod(scope, args) && trace == [Ran(scope, args)]
      ensures CallClient().Some? ==>
                var c := CallClient().value;
                var key := KeyString(CallKey(scope, args));
                var hit := CachedRead(options, c.GetOutcome(key), c.defaultDeserializer);
                var get := Called(c, GetCall(key, CallField(scope, args)));
                && (hit.Some? ==> r == Ok(hit.value) && trace == [get])
                && (hit.None? ==> r == originalMethod(scope, args) && trace == [get, Ran(scope, args)])
    {
      var client := CallClient();
      if client.None? {
        r := originalMethod(scope, args);
        trace := [Ran(scope, args)];
        return;
      }
      var c := client.value;
      var key := KeyString(CallKey(scope, args));
      var got, getCall := c.Get(key, CallField(scope, args));
      trace := [Called(c, getCall)];
      var hit := CachedRead(options, got, c.defaultDeserializer);
      if hit.Some? {
        r := Ok(hit.value);
      } else {
        r := originalMethod(scope, args);
        trace := trace + [Ran(scope, args)];
      }
    }
  }
}
