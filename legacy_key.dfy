/** Key derivation of the root package, lib/util/getCacheKey.ts: string keys only, builders
    over `(args, context)`, and `getSeparatedKeys`. */
module LegacyKey {
  import opened JsValue
  import opened Builders
  import opened CacheKey

  /** Truthiness of a string key option: a function is truthy, a string when non-empty. */
  predicate StringSpecTruthy(spec: Spec<string>) {
    spec.Builder? || spec.value != ""
  }

  /** extractKey; an absent key takes the parameter default `''`. */
  function ExtractKey(passed: Option<Spec<string>>, args: seq<Value>, context: Value): (k: string)
    ensures passed.None? ==> k == ""
    ensures passed.Some? && passed.value.Literal? ==> k == passed.value.value
    ensures passed.Some? && passed.value.Builder? ==> k == passed.value.build(args, context, Undefined)
  {
    if passed.None? then "" else Resolve(passed.value, args, context, Undefined)
  }

  /** getCacheKey: a truthy key option gives the key, anything else the digest of the call. */
  function GetCacheKey(passed: Option<Spec<string>>, methodName: string, args: seq<Value>, context: Value,
                       digest: Digest): (k: string)
    ensures passed.Some? && StringSpecTruthy(passed.value) ==> k == ExtractKey(passed, args, context)
    ensures !(passed.Some? && StringSpecTruthy(passed.value)) ==> k == digest(CallMap(args, methodName, context))
    ensures Md5Shaped(digest) && !(passed.Some? && StringSpecTruthy(passed.value)) ==>
              |k| == 32 && forall i :: 0 <= i < 32 ==> IsHexDigit(k[i])
  {
    if passed.Some? && StringSpecTruthy(passed.value) then ExtractKey(passed, args, context)
    else digest(CallMap(args, methodName, context))
  }

  /** The final key of the root package's decorators, `hashKey ? `${hashKey}:${cacheKey}` : cacheKey`,
      as lib/decorators/CacheClear.ts composes it. */
  function FinalKey(passedCacheKey: Option<Spec<string>>, passedHashKey: Option<Spec<string>>, methodName: string,
                    args: seq<Value>, context: Value, digest: Digest): (k: string)
    ensures var cacheKey := GetCacheKey(passedCacheKey, methodName, args, context, digest);
            var hashKey := ExtractKey(passedHashKey, args, context);
            && (hashKey == "" ==> k == cacheKey)
            && (hashKey != "" ==> k == hashKey + ":" + cacheKey)
  {
    var cacheKey := GetCacheKey(passedCacheKey, methodName, args, context, digest);
    var hashKey := ExtractKey(passedHashKey, args, context);
    if hashKey != "" then hashKey + ":" + cacheKey else cacheKey
  }

  /** `String.prototype.split` on a one-character separator. */
  function Split(s: string, sep: char): (parts: seq<string>)
    ensures |parts| >= 1
    decreases |s|
  {
    if |s| == 0 then [""]
    else
      var rest := Split(s[1..], sep);
      if s[0] == sep then [""] + rest else [[s[0]] + rest[0]] + rest[1..]
  }

  /** No part contains the separator, and joining the parts with it gives back the string. */
  lemma {:induction false} SplitJoin(s: string, sep: char)
    ensures Join(Split(s, sep), [sep]) == s
    ensures forall i :: 0 <= i < |Split(s, sep)| ==> sep !in Split(s, sep)[i]
    decreases |s|
  {
    if |s| > 0 {
      var rest := Split(s[1..], sep);
      SplitJoin(s[1..], sep);
      assert s == [s[0]] + s[1..];
      if s[0] != sep {
        JoinFirst(rest, [s[0]], [sep]);
      }
    }
  }

  /** Extending the first part extends the joined string. */
  lemma JoinFirst(parts: seq<string>, prefix: string, sep: string)
    requires |parts| >= 1
    ensures Join([prefix + parts[0]] + parts[1..], sep) == prefix + Join(parts, sep)
  {
    var q := [prefix + parts[0]] + parts[1..];
    assert q[1..] == parts[1..];
  }

  /** A string holding the separator splits into at least two parts. */
  lemma {:induction false} SplitAtSeparator(s: string, sep: char)
    requires sep in s
    ensures |Split(s, sep)| >= 2
    decreases |s|
  {
    if s[0] != sep {
      SplitAtSeparator(s[1..], sep);
    }
  }

  /** A string without the separator is its own single part. */
  lemma {:induction false} SplitWithoutSeparator(s: string, sep: char)
    requires sep !in s
    ensures Split(s, sep) == [s]
    decreases |s|
  {
    if |s| > 0 {
      SplitWithoutSeparator(s[1..], sep);
      assert s == [s[0]] + s[1..];
    }
  }

  /** getSeparatedKeys: `null` for a key with no `:`, else its `:`-separated parts. */
  function GetSeparatedKeys(cacheKey: string): (r: Option<seq<string>>)
    ensures r.None? <==> ':' !in cacheKey
    ensures r.Some? ==> |r.value| >= 2 && Join(r.value, ":") == cacheKey
    ensures r.Some? ==> forall i :: 0 <= i < |r.value| ==> ':' !in r.value[i]
  {
    if ':' in cacheKey then
      SplitAtSeparator(cacheKey, ':');
      SplitJoin(cacheKey, ':');
      Some(Split(cacheKey, ':'))
    else None
  }

  /** A hash-prefixed key whose hash and key hold no `:` separates back into the two. */
  lemma FinalKeySeparates(hash: string, key: string, methodName: string, args: seq<Value>, context: Value, digest: Digest)
    requires hash != "" && key != "" && ':' !in hash && ':' !in key
    ensures GetSeparatedKeys(FinalKey(Some(Literal(key)), Some(Literal(hash)), methodName, args, context, digest))
            == Some([hash, key])
  {
    var k := hash + ":" + key;
    assert k == FinalKey(Some(Literal(key)), Some(Literal(hash)), methodName, args, context, digest);
    assert ':' in k by { assert k[|hash|] == ':'; }
    SplitOfPair(hash, key, ':');
  }

  /** Splitting `a + [sep] + b`, with `sep` in neither, gives exactly the two halves. */
  lemma {:induction false} SplitOfPair(a: string, b: string, sep: char)
    requires sep !in a && sep !in b
    ensures Split(a + [sep] + b, sep) == [a, b]
    decreases |a|
  {
    if |a| == 0 {
      assert a + [sep] + b == [sep] + b;
      assert ([sep] + b)[1..] == b;
      SplitWithoutSeparator(b, sep);
    } else {
      assert (a + [sep] + b)[1..] == a[1..] + [sep] + b;
      SplitOfPair(a[1..], b, sep);
      assert [a[0]] + a[1..] == a;
    }
  }
}
