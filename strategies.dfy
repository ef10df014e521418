/** The strategies a decorator can be given: the default ones and the no-op ones of
    packages/core/lib/strategies/no-op-strategy.ts. A strategy object is always truthy. */
module Strategies {
  import opened JsValue
  import opened MockStore
  import opened StrategyContexts
  import opened DefaultRead
  import DefaultClear
  import DefaultUpdate

  /** A read strategy; the default one carries its own pending maps. */
  datatype ReadStrategy = DefaultReadStrategy(instance: DefaultStrategy) | NoOpReadStrategy

  datatype ClearStrategy = DefaultClearStrategy | NoOpClearStrategy

  datatype UpdateStrategy = DefaultUpdateStrategy | NoOpUpdateStrategy

  /** What a read strategy may change: its own state and the context's stores. */
  function ReadFrame(s: ReadStrategy, ctx: ReadContext): set<object> {
    (if s.DefaultReadStrategy? then {s.instance as object} else {}) + {ctx.client as object} + Stores(ctx.fallbackClient)
  }

  /** One `s.handle(ctx)`. NoOpStrategy returns the method applied to the context's scope and
      arguments and makes no store call. */
  twostate predicate ReadHandled(s: ReadStrategy, ctx: ReadContext, new r: Outcome, new trace: seq<Event>)
    reads ReadFrame(s, ctx)
  {
    match s
    case DefaultReadStrategy(instance) => ReadThrough(instance, ctx, r, trace)
    case NoOpReadStrategy =>
      && r == ctx.originalMethod(ctx.scope, ctx.args)
      && trace == [Ran(ctx.scope, ctx.args)]
      && unchanged(ctx.client) && unchanged(Stores(ctx.fallbackClient))
  }

  method HandleRead(s: ReadStrategy, ctx: ReadContext) returns (r: Outcome, ghost trace: seq<Event>)
    modifies ReadFrame(s, ctx)
    ensures ReadHandled(s, ctx, r, trace)
    ensures old(ctx.client.Valid()) ==> ctx.client.Valid()
    ensures ctx.fallbackClient.Some? && old(ctx.fallbackClient.value.Valid()) ==> ctx.fallbackClient.value.Valid()
  {
    match s {
      case DefaultReadStrategy(instance) =>
        r, trace := instance.Handle(ctx);
      case NoOpReadStrategy =>
        r := ctx.originalMethod(ctx.scope, ctx.args);
        trace := [Ran(ctx.scope, ctx.args)];
    }
  }

  /** One `s.handle(ctx)`, taking the caches `before` and `fallbackBefore` to `after` and
      `fallbackAfter`. NoOpClearStrategy resolves to undefined and deletes nothing. */
  predicate ClearHandledBy(s: ClearStrategy, ctx: ClearContext, before: Dict, fallbackBefore: Dict,
                           after: Dict, fallbackAfter: Dict, r: Outcome, trace: seq<Event>)
  {
    match s
    case DefaultClearStrategy => DefaultClear.ClearHandled(ctx, before, fallbackBefore, after, fallbackAfter, r, trace)
    case NoOpClearStrategy => r == Ok(Undefined) && trace == [] && after == before && fallbackAfter == fallbackBefore
  }

  method HandleClear(s: ClearStrategy, ctx: ClearContext) returns (r: Outcome, ghost trace: seq<Event>)
    modifies SpecStores(ctx.client), OptionalSpecStores(ctx.fallbackClient)
    ensures ClearHandledBy(s, ctx, old(SpecCache(ctx.client)), old(OptionalSpecCache(ctx.fallbackClient)),
                           SpecCache(ctx.client), OptionalSpecCache(ctx.fallbackClient), r, trace)
    ensures ctx.client.Literal? && old(ctx.client.value.Valid()) ==> ctx.client.value.Valid()
    ensures ctx.fallbackClient.Some? && ctx.fallbackClient.value.Literal? && old(ctx.fallbackClient.value.value.Valid()) ==>
              ctx.fallbackClient.value.value.Valid()
  {
    match s {
      case DefaultClearStrategy =>
        r, trace := DefaultClear.Handle(ctx);
      case NoOpClearStrategy =>
        r, trace := Ok(Undefined), [];
    }
  }

  /** One `s.handle(ctx)`, taking the caches `before` and `fallbackBefore` to `after` and
      `fallbackAfter`. NoOpUpdateStrategy resolves to undefined, not to the result, and writes
      nothing. */
  predicate UpdateHandledBy(s: UpdateStrategy, ctx: UpdateContext, before: Dict, fallbackBefore: Dict,
                            after: Dict, fallbackAfter: Dict, r: Outcome, trace: seq<Event>)
  {
    match s
    case DefaultUpdateStrategy => DefaultUpdate.UpdateHandled(ctx, before, fallbackBefore, after, fallbackAfter, r, trace)
    case NoOpUpdateStrategy => r == Ok(Undefined) && trace == [] && after == before && fallbackAfter == fallbackBefore
  }

  method HandleUpdate(s: UpdateStrategy, ctx: UpdateContext) returns (r: Outcome, ghost trace: seq<Event>)
    modifies ctx.client, Stores(ctx.fallbackClient)
    ensures UpdateHandledBy(s, ctx, old(ctx.client.cache), old(StoreCache(ctx.fallbackClient)),
                            ctx.client.cache, StoreCache(ctx.fallbackClient), r, trace)
    ensures old(ctx.client.Valid()) ==> ctx.client.Valid()
    ensures ctx.fallbackClient.Some? && old(ctx.fallbackClient.value.Valid()) ==> ctx.fallbackClient.value.Valid()
  {
    match s {
      case DefaultUpdateStrategy =>
        r, trace := DefaultUpdate.Handle(ctx);
      case NoOpUpdateStrategy =>
        r, trace := Ok(Undefined), [];
    }
  }

  /** Under either strategy an update settles successfully: it never rejects. */
  lemma UpdateNeverRejects(s: UpdateStrategy, ctx: UpdateContext, before: Dict, fallbackBefore: Dict,
                           after: Dict, fallbackAfter: Dict, r: Outcome, trace: seq<Event>)
    requires UpdateHandledBy(s, ctx, before, fallbackBefore, after, fallbackAfter, r, trace)
    ensures r.Ok?
    ensures s.DefaultUpdateStrategy? ==> r.value == ctx.result
  {
  }

  /** Under either strategy a clear resolves to undefined: a clearing error never reaches the
      decorator. */
  lemma ClearNeverRejects(s: ClearStrategy, ctx: ClearContext, before: Dict, fallbackBefore: Dict,
                          after: Dict, fallbackAfter: Dict, r: Outcome, trace: seq<Event>)
    requires ClearHandledBy(s, ctx, before, fallbackBefore, after, fallbackAfter, r, trace)
    ensures r == Ok(Undefined)
  {
  }
}
