/** Key derivation of packages/core/lib/util/getCacheKey.ts. */
module CacheKey {
  import opened JsValue
  import opened Builders

  /** The object `{args, methodName, context}` that the default key digests. */
  datatype CallMap = CallMap(args: seq<Value>, methodName: string, context: Value)

  /** md5 over the `serialize-javascript` text of a call map: a foreign, deterministic function. */
  type Digest = CallMap -> string

  predicate IsHexDigit(c: char) {
    '0' <= c <= '9' || 'a' <= c <= 'f' || 'A' <= c <= 'F'
  }

  /** What an md5 hex digest looks like: 32 hexadecimal characters. */
  ghost predicate Md5Shaped(digest: Digest) {
    forall c :: |digest(c)| == 32 && forall i :: 0 <= i < 32 ==> IsHexDigit(digest(c)[i])
  }

  /** A key option absent from the options object takes the parameter default `''`. */
  function KeySpecOrDefault(passed: Option<Spec<Key>>): Spec<Key> {
    if passed.Some? then passed.value else Literal(KeyString(""))
  }

  /** Truthiness of a key option: a function or an array is truthy, a string when non-empty. */
  predicate KeySpecTruthy(spec: Spec<Key>) {
    spec.Builder? || KeyTruthy(spec.value)
  }

  /** extractKey: a builder is called with `(args, context, returnValue)`. */
  function ExtractKey(passed: Option<Spec<Key>>, args: seq<Value>, context: Value, returnValue: Value): (k: Key)
    ensures passed.None? ==> k == KeyString("")
    ensures passed.Some? && passed.value.Literal? ==> k == passed.value.value
    ensures passed.Some? && passed.value.Builder? ==> k == passed.value.build(args, context, returnValue)
  {
    Resolve(KeySpecOrDefault(passed), args, context, returnValue)
  }

  /** getCacheKey: the given key when it is truthy, else the digest of the call. */
  function GetCacheKey(passed: Option<Spec<Key>>, methodName: string, args: seq<Value>, context: Value,
                       returnValue: Value, digest: Digest): (k: Key)
    ensures KeySpecTruthy(KeySpecOrDefault(passed)) ==> k == ExtractKey(passed, args, context, returnValue)
    ensures !KeySpecTruthy(KeySpecOrDefault(passed)) ==> k == KeyString(digest(CallMap(args, methodName, context)))
    ensures Md5Shaped(digest) && !KeySpecTruthy(KeySpecOrDefault(passed)) ==>
              k.KeyString? && |k.name| == 32 && forall i :: 0 <= i < 32 ==> IsHexDigit(k.name[i])
  {
    if KeySpecTruthy(KeySpecOrDefault(passed)) then
      ExtractKey(passed, args, context, returnValue)
    else
      KeyString(digest(CallMap(args, methodName, context)))
  }

  /** `${hashKey}:${key}` when the hash key is truthy, else the key itself. */
  function WithHash(hashKey: Key, key: string): string {
    if KeyTruthy(hashKey) then KeyText(hashKey) + ":" + key else key
  }

  /** getFinalKey: the cache key, prefixed element-wise by the hash key. */
  function GetFinalKey(passedCacheKey: Option<Spec<Key>>, passedHashKey: Option<Spec<Key>>, methodName: string,
                       args: seq<Value>, context: Value, returnValue: Value, digest: Digest): (k: Key)
    // the hash key is extracted with the same arguments and never falls back to a digest
    ensures var cacheKey := GetCacheKey(passedCacheKey, methodName, args, context, returnValue, digest);
            var hashKey := ExtractKey(passedHashKey, args, context, returnValue);
            && (!KeyTruthy(hashKey) ==> k == cacheKey)
            && (cacheKey.KeyString? ==> k.KeyString? && (KeyTruthy(hashKey) ==> k.name == KeyText(hashKey) + ":" + cacheKey.name))
            && (cacheKey.KeyList? ==>
                  (&& k.KeyList?
                   && |k.names| == |cacheKey.names|
                   && forall i :: 0 <= i < |k.names| ==>
                        k.names[i] == if KeyTruthy(hashKey) then KeyText(hashKey) + ":" + cacheKey.names[i] else cacheKey.names[i]))
  {
    var cacheKey := GetCacheKey(passedCacheKey, methodName, args, context, returnValue, digest);
    var hashKey := ExtractKey(passedHashKey, args, context, returnValue);
    match cacheKey
    case KeyList(ks) => KeyList(seq(|ks|, i requires 0 <= i < |ks| => WithHash(hashKey, ks[i])))
    case KeyString(s) => KeyString(WithHash(hashKey, s))
  }

  /** With no hash key option at all, the final key is exactly the cache key. */
  lemma NoHashKeyLeavesKey(passedCacheKey: Option<Spec<Key>>, methodName: string, args: seq<Value>,
                           context: Value, returnValue: Value, digest: Digest)
    ensures GetFinalKey(passedCacheKey, None, methodName, args, context, returnValue, digest)
         == GetCacheKey(passedCacheKey, methodName, args, context, returnValue, digest)
  {
  }

  /** Under any hash key option that resolves to a non-empty string without `:`, every name of
      the final key splits back, at its first `:`, into the hash key and the matching name of
      the cache key, whether the keys are literals, builders or the digest. */
  lemma HashPrefixSplitsBack(passedCacheKey: Option<Spec<Key>>, passedHashKey: Option<Spec<Key>>, methodName: string,
                             args: seq<Value>, context: Value, returnValue: Value, digest: Digest)
    requires var h := ExtractKey(passedHashKey, args, context, returnValue);
             h.KeyString? && h.name != "" && ':' !in h.name
    ensures var k := GetFinalKey(passedCacheKey, passedHashKey, methodName, args, context, returnValue, digest);
            var hash := ExtractKey(passedHashKey, args, context, returnValue).name;
            var cacheKey := GetCacheKey(passedCacheKey, methodName, args, context, returnValue, digest);
            && (cacheKey.KeyString? ==>
                  k.KeyString? && BeforeFirstColon(k.name) == hash && AfterFirstColon(k.name) == cacheKey.name)
            && (cacheKey.KeyList? ==>
                  && k.KeyList? && |k.names| == |cacheKey.names|
                  && forall i :: 0 <= i < |k.names| ==>
                       BeforeFirstColon(k.names[i]) == hash && AfterFirstColon(k.names[i]) == cacheKey.names[i])
  {
    var k := GetFinalKey(passedCacheKey, passedHashKey, methodName, args, context, returnValue, digest);
    var hashKey := ExtractKey(passedHashKey, args, context, returnValue);
    var cacheKey := GetCacheKey(passedCacheKey, methodName, args, context, returnValue, digest);
    assert KeyTruthy(hashKey) && KeyText(hashKey) == hashKey.name;
    if cacheKey.KeyString? {
      SplitAtFirstColon(hashKey.name, cacheKey.name);
    } else {
      forall i | 0 <= i < |k.names|
        ensures BeforeFirstColon(k.names[i]) == hashKey.name && AfterFirstColon(k.names[i]) == cacheKey.names[i]
      {
        SplitAtFirstColon(hashKey.name, cacheKey.names[i]);
      }
    }
  }

  /** The text before the first `:` (all of it when there is none). */
  function BeforeFirstColon(s: string): string {
    if |s| == 0 || s[0] == ':' then "" else [s[0]] + BeforeFirstColon(s[1..])
  }

  /** The text after the first `:` (empty when there is none). */
  function AfterFirstColon(s: string): string {
    if |s| == 0 then "" else if s[0] == ':' then s[1..] else AfterFirstColon(s[1..])
  }

  lemma {:induction false} SplitAtFirstColon(h: string, rest: string)
    requires ':' !in h
    ensures BeforeFirstColon(h + ":" + rest) == h
    ensures AfterFirstColon(h + ":" + rest) == rest
  {
    if |h| > 0 {
      assert (h + ":" + rest)[1..] == h[1..] + ":" + rest;
      SplitAtFirstColon(h[1..], rest);
    } else {
      assert h + ":" + rest == ":" + rest;
    }
  }
}
