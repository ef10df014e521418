/** packages/core/lib/strategies/DefaultClearStrategy.ts: one `del` of the key, or with
    `isPattern` of everything `keys` finds for it; on any failure the same clear is tried on
    the fallback client, and every error is swallowed. */
module DefaultClear {
  import opened JsValue
  import opened Builders
  import opened MockStore
  import opened StrategyContexts

  /** The names a clear deletes from the state `d`: the key's own names, or with `isPattern`
      the `keys(p)` results of each of its names, concatenated in order. */
  function ClearedNames(d: Dict, key: Key, isPattern: bool): seq<string> {
    if isPattern then KeysOfAll(d, DeletedNames(key)) else DeletedNames(key)
  }

  /** The argument of the clear's one `del`: the key as given, or the list of matches. */
  function DelArgument(d: Dict, key: Key, isPattern: bool): Key {
    if isPattern then KeyList(ClearedNames(d, key, true)) else key
  }

  /** A pattern clear stops before `del` when a `keys` call rejects. */
  predicate KeysStepRejects(a: MockAdapter, key: Key, isPattern: bool) {
    isPattern && a.keysFails && |DeletedNames(key)| > 0
  }

  predicate ClearRejects(a: MockAdapter, key: Key, isPattern: bool) {
    KeysStepRejects(a, key, isPattern) || a.delFails
  }

  /** `keys(p)` for each pattern, in order (all issued before any settles). */
  function KeysCalls(a: MockAdapter, patterns: seq<string>): seq<Event>
    decreases |patterns|
  {
    if |patterns| == 0 then []
    else KeysCalls(a, patterns[..|patterns| - 1]) + [Called(a, KeysCall(patterns[|patterns| - 1]))]
  }

  /** The calls one clear makes on a store in state `d`. */
  function ClearCalls(a: MockAdapter, d: Dict, key: Key, isPattern: bool): seq<Event> {
    (if isPattern then KeysCalls(a, DeletedNames(key)) else [])
      + (if KeysStepRejects(a, key, isPattern) then [] else [Called(a, DelCall(DelArgument(d, key, isPattern)))])
  }

  /** The cache after one clear of `key` from the cache `before`. */
  function AfterClear(a: MockAdapter, before: Dict, key: Key, isPattern: bool): Dict {
    if ClearRejects(a, key, isPattern) then before else RemoveAll(before, ClearedNames(before, key, isPattern))
  }

  /** One clear on the store `a`, taking its cache from `before` to `after`: its calls, how it
      settles, and the cache it leaves. */
  predicate ClearedOn(a: MockAdapter, before: Dict, after: Dict, key: Key, isPattern: bool, r: Outcome, trace: seq<Event>) {
    && trace == ClearCalls(a, before, key, isPattern)
    && r == (if ClearRejects(a, key, isPattern) then Err(MockFailure) else Ok(Undefined))
    && after == AfterClear(a, before, key, isPattern)
  }

  /** The body of one `try` block of `handle`, on the given client. A client option that is not
      a client (a builder function) has no `del` or `keys`: the call is a TypeError. */
  method ClearOn(target: Spec<MockAdapter>, key: Key, isPattern: bool) returns (r: Outcome, ghost trace: seq<Event>)
    modifies SpecStores(target)
    ensures target.Builder? ==> r == Err(TypeError) && trace == []
    ensures target.Literal? ==> ClearedOn(target.value, old(target.value.cache), target.value.cache, key, isPattern, r, trace)
    ensures target.Literal? && old(target.value.Valid()) ==> target.value.Valid()
  {
    if target.Builder? {
      r, trace := Err(TypeError), [];
      return;
    }
    var a := target.value;
    if !isPattern {
      ghost var call;
      r, call := a.Del(key);
      trace := [Called(a, call)];
      return;
    }
    match key {
      case KeyString(s) =>
        var listed;
        ghost var call;
        listed, call := a.Keys(s);
        trace := [Called(a, call)];
        PatternClearOfString(a.cache, s);
        SingleKeysCall(a, s);
        if listed.Err? {
          r := Err(listed.error);
          return;
        }
        ghost var call2;
        r, call2 := a.Del(KeyList(listed.value));
        trace := trace + [Called(a, call2)];
      case KeyList(ps) =>
        var found: seq<string> := [];
        var failed := false;
        var i := 0;
        trace := [];
        while i < |ps|
          invariant 0 <= i <= |ps|
          invariant a.cache == old(a.cache)
          invariant trace == KeysCalls(a, ps[..i])
          invariant failed <==> (i > 0 && a.keysFails)
          invariant !failed ==> found == KeysOfAll(a.cache, ps[..i])
        {
          var listed;
          ghost var call;
          listed, call := a.Keys(ps[i]);
          assert ps[..i + 1][..i] == ps[..i];
          trace := trace + [Called(a, call)];
          if listed.Err? {
            failed := true;
          } else {
            found := found + listed.value;
          }
          i := i + 1;
        }
        assert ps[..|ps|] == ps;
        if failed {
          r := Err(MockFailure);
          return;
        }
        ghost var call;
        r, call := a.Del(KeyList(found));
        trace := trace + [Called(a, call)];
    }
  }

  /** The store behind a fallback option, unless it is the primary's own store. */
  predicate DistinctFallback(ctx: ClearContext) {
    ctx.fallbackClient.Some? && ctx.fallbackClient.value.Literal? &&
    (ctx.client.Builder? || ctx.fallbackClient.value.value != ctx.client.value)
  }

  /** One `handle(ctx)`, taking the caches `before` and `fallbackBefore` of the client and the
      fallback (when they are clients) to `after` and `fallbackAfter`: it always resolves to
      undefined. The primary clear runs first; only when it fails does the same clear run on
      the fallback, whose own failure is swallowed. `hashesToClear` plays no part. */
  predicate ClearHandled(ctx: ClearContext, before: Dict, fallbackBefore: Dict, after: Dict, fallbackAfter: Dict,
                         r: Outcome, trace: seq<Event>)
  {
    var pattern := ctx.isPattern == Some(true);
    var primaryFails := ctx.client.Builder? || ClearRejects(ctx.client.value, ctx.key, pattern);
    var first := if ctx.client.Builder? then [] else ClearCalls(ctx.client.value, before, ctx.key, pattern);
    var retry := primaryFails && ctx.fallbackClient.Some? && ctx.fallbackClient.value.Literal?;
    && r == Ok(Undefined)
    && (ctx.client.Literal? ==> after == AfterClear(ctx.client.value, before, ctx.key, pattern))
    && (retry ==>
          var fb := ctx.fallbackClient.value.value;
          && trace == first + ClearCalls(fb, fallbackBefore, ctx.key, pattern)
          && fallbackAfter == AfterClear(fb, fallbackBefore, ctx.key, pattern))
    && (!retry ==> trace == first && (DistinctFallback(ctx) ==> fallbackAfter == fallbackBefore))
  }

  /** DefaultClearStrategy.handle, proved against `ClearHandled`. */
  method Handle(ctx: ClearContext) returns (r: Outcome, ghost trace: seq<Event>)
    modifies SpecStores(ctx.client), OptionalSpecStores(ctx.fallbackClient)
    ensures ClearHandled(ctx, old(SpecCache(ctx.client)), old(OptionalSpecCache(ctx.fallbackClient)),
                         SpecCache(ctx.client), OptionalSpecCache(ctx.fallbackClient), r, trace)
    ensures ctx.client.Literal? && old(ctx.client.value.Valid()) ==> ctx.client.value.Valid()
    ensures ctx.fallbackClient.Some? && ctx.fallbackClient.value.Literal? && old(ctx.fallbackClient.value.value.Valid()) ==>
              ctx.fallbackClient.value.value.Valid()
  {
    var pattern := ctx.isPattern == Some(true);
    var first;
    first, trace := ClearOn(ctx.client, ctx.key, pattern);
    if first.Err? && ctx.fallbackClient.Some? {
      var _, t := ClearOn(ctx.fallbackClient.value, ctx.key, pattern);
      trace := trace + t;
    }
    r := Ok(Undefined);
  }

  /** A plain clear deletes exactly the key's names: one for a string, each element of a list. */
  lemma PlainClearNames(d: Dict, key: Key)
    ensures ClearedNames(d, key, false) == (if key.KeyString? then [key.name] else key.names)
    ensures DelArgument(d, key, false) == key
  {
  }

  /** A pattern clear of a string key deletes exactly what `keys(key)` lists. */
  lemma PatternClearOfString(d: Dict, s: string)
    ensures ClearedNames(d, KeyString(s), true) == MatchingKeys(d, s)
  {
    assert [s][..0] == [];
    assert KeysOfAll(d, [s]) == KeysOfAll(d, []) + MatchingKeys(d, s);
  }

  /** A pattern clear of a string key makes one `keys` call. */
  lemma SingleKeysCall(a: MockAdapter, s: string)
    ensures KeysCalls(a, [s]) == [Called(a, KeysCall(s))]
  {
    assert [s][..0] == [];
    assert KeysCalls(a, [s]) == KeysCalls(a, []) + [Called(a, KeysCall(s))];
  }

  /** A pattern clear of a list concatenates the matches of each element, keeping repeats:
      the names for `ps + [p]` are those for `ps` followed by `keys(p)`. */
  lemma PatternClearOfList(d: Dict, ps: seq<string>, p: string)
    ensures ClearedNames(d, KeyList(ps + [p]), true) == ClearedNames(d, KeyList(ps), true) + MatchingKeys(d, p)
  {
    assert (ps + [p])[..|ps|] == ps;
  }

  /** What a successful pattern clear leaves: the stored names that match none of the patterns. */
  lemma PatternClearSurvivors(d: Dict, key: Key, x: string)
    requires d.Valid()
    ensures x in RemoveAll(d, ClearedNames(d, key, true)).values <==>
              x in d.values && forall p :: p in DeletedNames(key) ==> !Includes(x, p)
  {
    DelHashSurvivors(d, DeletedNames(key), x);
  }
}
