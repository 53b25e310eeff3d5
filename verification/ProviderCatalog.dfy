/**
 Fetching, caching and invalidating provider catalogs. Each provider has at most
 one fetch registered as in flight; a fetch that settles late must not undo an
 invalidation or disturb a newer fetch.

 Every step is a synchronous stretch of the program: starting a fetch (up to its
 first await), firing its abort signal, settling it, invalidating a provider.
 */
module ProviderCatalog {
  import opened Options

  type Provider = string
  type FetchId = nat
  type Models = map<string, Option<nat>>

  /** A fetch, as its closure and its promise see it. `startedAt` counts steps. */
  datatype Fetch = Fetch(provider: Provider, startedAt: nat, aborted: bool, settled: bool)

  /** A catalog on disk; `source` is the fetch that stored it. */
  datatype Snapshot = Snapshot(models: Models, source: FetchId)

  datatype Catalogs = Catalogs(
    clock: nat,
    fetches: seq<Fetch>,
    inFlight: map<Provider, FetchId>,
    stored: map<Provider, Snapshot>,
    invalidatedAt: map<Provider, nat>)

  const EMPTY := Catalogs(0, [], map[], map[], map[])

  /** How the asynchronous part of a fetch ends. */
  datatype Outcome = Loaded(models: Models) | Failed

  datatype Event =
    | Start(provider: Provider, failsAtOnce: bool)  // a missing key or registry entry throws before any await
    | Abort(fetch: FetchId)                         // the fetch's own timeout
    | Settle(fetch: FetchId, outcome: Outcome)
    | Invalidate(provider: Provider)

  predicate Enabled(c: Catalogs, e: Event) {
    match e
    case Start(_, _) => true
    case Abort(f) => f < |c.fetches|
    case Settle(f, _) => f < |c.fetches| && !c.fetches[f].settled
    case Invalidate(_) => true
  }

  function Tick(c: Catalogs): Catalogs {
    c.(clock := c.clock + 1)
  }

  /**
   Join the fetch in flight or start one. When the new fetch throws before its
   first await, its `finally` has run before the entry is registered.
   */
  function StartIn(c: Catalogs, p: Provider, failsAtOnce: bool): Catalogs {
    if p in c.inFlight then c
    else
      var f := |c.fetches|;
      c.(fetches := c.fetches + [Fetch(p, c.clock, false, failsAtOnce)], inFlight := c.inFlight[p := f])
  }

  function AbortIn(c: Catalogs, f: FetchId): Catalogs
    requires f < |c.fetches|
  {
    c.(fetches := c.fetches[f := c.fetches[f].(aborted := true)])
  }

  function Unregister(c: Catalogs, p: Provider, f: FetchId): Catalogs {
    if p in c.inFlight && c.inFlight[p] == f then c.(inFlight := c.inFlight - {p}) else c
  }

  /** The guard before storing, the store, and the `finally` block. */
  function SettleIn(c: Catalogs, f: FetchId, o: Outcome): Catalogs
    requires f < |c.fetches|
  {
    var fetch := c.fetches[f];
    var c1 := c.(fetches := c.fetches[f := fetch.(settled := true)]);
    var c2 := if o.Loaded? && !fetch.aborted
              then c1.(stored := c1.stored[fetch.provider := Snapshot(o.models, f)]) else c1;
    Unregister(c2, fetch.provider, f)
  }

  function InvalidateIn(c: Catalogs, p: Provider): Catalogs {
    var c1 := if p in c.inFlight && c.inFlight[p] < |c.fetches|
              then AbortIn(c, c.inFlight[p]).(inFlight := c.inFlight - {p}) else c;
    c1.(stored := c1.stored - {p}, invalidatedAt := c1.invalidatedAt[p := c.clock])
  }

  function Step(c: Catalogs, e: Event): Catalogs
    requires Enabled(c, e)
  {
    Tick(match e
         case Start(p, now) => StartIn(c, p, now)
         case Abort(f) => AbortIn(c, f)
         case Settle(f, o) => SettleIn(c, f, o)
         case Invalidate(p) => InvalidateIn(c, p))
  }

  ghost predicate Runs(c: Catalogs, es: seq<Event>, c': Catalogs)
    decreases |es|
  {
    if es == [] then c' == c else Enabled(c, es[0]) && Runs(Step(c, es[0]), es[1..], c')
  }

  /** Whether the fetch began after the provider was last invalidated. */
  ghost predicate After(c: Catalogs, f: FetchId)
    requires f < |c.fetches|
  {
    var p := c.fetches[f].provider;
    p in c.invalidatedAt ==> c.fetches[f].startedAt > c.invalidatedAt[p]
  }

  ghost predicate RegisteredInv(c: Catalogs, p: Provider)
    requires p in c.inFlight
  {
    && c.inFlight[p] < |c.fetches|
    && c.fetches[c.inFlight[p]].provider == p
    && After(c, c.inFlight[p])
  }

  /** A fetch that could still store something is the registered one. */
  ghost predicate FetchInv(c: Catalogs, f: FetchId)
    requires f < |c.fetches|
  {
    !c.fetches[f].settled && !c.fetches[f].aborted ==>
      c.fetches[f].provider in c.inFlight && c.inFlight[c.fetches[f].provider] == f
  }

  ghost predicate StoredInv(c: Catalogs, p: Provider)
    requires p in c.stored
  {
    && c.stored[p].source < |c.fetches|
    && c.fetches[c.stored[p].source].provider == p
    && After(c, c.stored[p].source)
  }

  ghost predicate Inv(c: Catalogs) {
    && (forall p :: p in c.invalidatedAt ==> c.invalidatedAt[p] < c.clock)
    && (forall p :: p in c.inFlight ==> RegisteredInv(c, p))
    && (forall f :: 0 <= f < |c.fetches| ==> FetchInv(c, f))
    && (forall p :: p in c.stored ==> StoredInv(c, p))
  }

  lemma {:induction false} StartKeepsInv(c: Catalogs, p: Provider, now: bool)
    requires Inv(c)
    ensures Inv(Tick(StartIn(c, p, now)))
  {
    var c' := Tick(StartIn(c, p, now));
    forall q | q in c'.inFlight ensures RegisteredInv(c', q) {
      assert q in c.inFlight ==> RegisteredInv(c, q);
    }
    forall f | 0 <= f < |c'.fetches| ensures FetchInv(c', f) {
      if f < |c.fetches| {
        assert FetchInv(c, f);
      }
    }
    forall q | q in c'.stored ensures StoredInv(c', q) {
      assert StoredInv(c, q);
    }
  }

  lemma {:induction false} AbortKeepsInv(c: Catalogs, f: FetchId)
    requires Inv(c) && f < |c.fetches|
    ensures Inv(Tick(AbortIn(c, f)))
  {
    var c' := Tick(AbortIn(c, f));
    forall q | q in c'.inFlight ensures RegisteredInv(c', q) {
      assert RegisteredInv(c, q);
    }
    forall g | 0 <= g < |c'.fetches| ensures FetchInv(c', g) {
      assert FetchInv(c, g);
    }
    forall q | q in c'.stored ensures StoredInv(c', q) {
      assert StoredInv(c, q);
    }
  }

  /** The fetch that settles with a catalog to store is the registered one. */
  lemma {:induction false} SettleKeepsStored(c: Catalogs, f: FetchId, o: Outcome, q: Provider)
    requires Inv(c) && Enabled(c, Settle(f, o)) && q in SettleIn(c, f, o).stored
    ensures StoredInv(Tick(SettleIn(c, f, o)), q)
  {
    assert FetchInv(c, f);
    if q == c.fetches[f].provider && o.Loaded? && !c.fetches[f].aborted {
      assert RegisteredInv(c, q);
    } else {
      assert StoredInv(c, q);
    }
  }

  lemma {:induction false} SettleKeepsInv(c: Catalogs, f: FetchId, o: Outcome)
    requires Inv(c) && Enabled(c, Settle(f, o))
    ensures Inv(Tick(SettleIn(c, f, o)))
  {
    var c' := Tick(SettleIn(c, f, o));
    assert FetchInv(c, f);
    forall q | q in c'.inFlight ensures RegisteredInv(c', q) {
      assert RegisteredInv(c, q);
    }
    forall g | 0 <= g < |c'.fetches| ensures FetchInv(c', g) {
      assert FetchInv(c, g);
    }
    forall q | q in c'.stored ensures StoredInv(c', q) {
      hide StoredInv;
      SettleKeepsStored(c, f, o, q);
    }
  }

  lemma {:induction false} InvalidateKeepsInv(c: Catalogs, p: Provider)
    requires Inv(c)
    ensures Inv(Tick(InvalidateIn(c, p)))
  {
    var c' := Tick(InvalidateIn(c, p));
    if p in c.inFlight {
      assert RegisteredInv(c, p);
    }
    forall q | q in c'.inFlight ensures RegisteredInv(c', q) {
      assert RegisteredInv(c, q);
    }
    forall g | 0 <= g < |c'.fetches| ensures FetchInv(c', g) {
      assert FetchInv(c, g);
    }
    forall q | q in c'.stored ensures StoredInv(c', q) {
      assert StoredInv(c, q);
    }
  }

  lemma {:induction false} StepKeepsInv(c: Catalogs, e: Event)
    requires Inv(c) && Enabled(c, e)
    ensures Inv(Step(c, e))
  {
    match e
    case Start(p, now) => StartKeepsInv(c, p, now);
    case Abort(f) => AbortKeepsInv(c, f);
    case Settle(f, o) => SettleKeepsInv(c, f, o);
    case Invalidate(p) => InvalidateKeepsInv(c, p);
  }

  lemma {:induction false} RunKeepsInv(c: Catalogs, es: seq<Event>, c': Catalogs)
    requires Inv(c) && Runs(c, es, c')
    ensures Inv(c')
    decreases |es|
  {
    if es != [] {
      StepKeepsInv(c, es[0]);
      RunKeepsInv(Step(c, es[0]), es[1..], c');
    }
  }

  /**
   Over every interleaving of fetches, aborts, settlements and invalidations, a
   stored catalog comes from a fetch of that provider that was started after the
   provider's last invalidation.
   */
  lemma {:induction false} NothingStaleIsStored(es: seq<Event>, c: Catalogs, p: Provider)
    requires Runs(EMPTY, es, c) && p in c.stored
    ensures c.stored[p].source < |c.fetches|
    ensures var fetch := c.fetches[c.stored[p].source];
            && fetch.provider == p
            && (p in c.invalidatedAt ==> fetch.startedAt > c.invalidatedAt[p])
  {
    RunKeepsInv(EMPTY, es, c);
    assert StoredInv(c, p);
  }

  /**
   A fetch that settles removes no registration but its own, and stores nothing
   for any other provider; a settling fetch that was aborted stores nothing.
   */
  lemma {:induction false} SettleTouchesOnlyItsOwn(c: Catalogs, f: FetchId, o: Outcome, p: Provider)
    requires Enabled(c, Settle(f, o))
    ensures var c' := Step(c, Settle(f, o));
            && (p in c.inFlight && c.inFlight[p] != f ==> p in c'.inFlight && c'.inFlight[p] == c.inFlight[p])
            && (p in c'.inFlight ==> p in c.inFlight && c'.inFlight[p] == c.inFlight[p])
            && (p != c.fetches[f].provider || c.fetches[f].aborted || o == Failed ==>
                  (p in c'.stored <==> p in c.stored) && (p in c.stored ==> c'.stored[p] == c.stored[p]))
  {
  }

  // ------------------------------------------------------------------
  // What is stored is what was fetched
  // ------------------------------------------------------------------

  /** Some settlement brought these models for that fetch. */
  ghost predicate Brought(es: seq<Event>, snapshot: Snapshot) {
    exists i :: 0 <= i < |es| && es[i] == Settle(snapshot.source, Loaded(snapshot.models))
  }

  ghost predicate AllBrought(c: Catalogs, done: seq<Event>) {
    forall p :: p in c.stored ==> Brought(done, c.stored[p])
  }

  lemma {:induction false} StepKeepsBrought(c: Catalogs, done: seq<Event>, e: Event)
    requires AllBrought(c, done) && Enabled(c, e)
    ensures AllBrought(Step(c, e), done + [e])
  {
    var c' := Step(c, e);
    forall p | p in c'.stored
      ensures Brought(done + [e], c'.stored[p])
    {
      if p in c.stored && c'.stored[p] == c.stored[p] {
        var i :| 0 <= i < |done| && done[i] == Settle(c.stored[p].source, Loaded(c.stored[p].models));
        assert (done + [e])[i] == done[i];
      } else {
        assert (done + [e])[|done|] == e;
      }
    }
  }

  lemma {:induction false} RunKeepsBrought(c: Catalogs, done: seq<Event>, es: seq<Event>, c': Catalogs)
    requires AllBrought(c, done) && Runs(c, es, c')
    ensures AllBrought(c', done + es)
    decreases |es|
  {
    if es == [] {
      assert done + es == done;
    } else {
      StepKeepsBrought(c, done, es[0]);
      RunKeepsBrought(Step(c, es[0]), done + [es[0]], es[1..], c');
      assert done + [es[0]] + es[1..] == done + es;
    }
  }

  /** Over every run a stored catalog holds exactly the models that its fetch settled with. */
  lemma {:induction false} StoredWasFetched(es: seq<Event>, c: Catalogs, p: Provider)
    requires Runs(EMPTY, es, c) && p in c.stored
    ensures exists i :: 0 <= i < |es| && es[i] == Settle(c.stored[p].source, Loaded(c.stored[p].models))
  {
    RunKeepsBrought(EMPTY, [], es, c);
    assert [] + es == es;
    assert Brought(es, c.stored[p]);
  }

  /**
   A fetch starts live, unless it failed at once; it is aborted by its own timeout or
   by an invalidation while it is in flight, and by nothing else, and it settles once.
   */
  lemma {:induction false} LifeOfAFetch(c: Catalogs, e: Event, f: FetchId)
    requires Enabled(c, e) && f < |Step(c, e).fetches|
    ensures f >= |c.fetches| ==>
              e.Start? && e.provider !in c.inFlight
              && Step(c, e).fetches[f] == Fetch(e.provider, c.clock, false, e.failsAtOnce)
    ensures f < |c.fetches| ==>
              && Step(c, e).fetches[f].provider == c.fetches[f].provider
              && Step(c, e).fetches[f].startedAt == c.fetches[f].startedAt
              && Step(c, e).fetches[f].settled == (c.fetches[f].settled || (e.Settle? && e.fetch == f))
              && Step(c, e).fetches[f].aborted
                 == (c.fetches[f].aborted || e == Abort(f)
                     || (e.Invalidate? && e.provider in c.inFlight && c.inFlight[e.provider] == f))
  {
  }

  /** Nothing invalidates the provider or settles with another catalog for it. */
  ghost predicate LeavesAlone(c: Catalogs, es: seq<Event>, p: Provider)
    decreases |es|
  {
    es != [] && Enabled(c, es[0]) ==>
      && es[0] != Invalidate(p)
      && (es[0].Settle? && es[0].outcome.Loaded? ==> c.fetches[es[0].fetch].provider != p)
      && LeavesAlone(Step(c, es[0]), es[1..], p)
  }

  lemma {:induction false} LeftAlone(c: Catalogs, es: seq<Event>, c': Catalogs, p: Provider)
    requires Runs(c, es, c') && LeavesAlone(c, es, p) && p in c.stored
    ensures p in c'.stored && c'.stored[p] == c.stored[p]
    decreases |es|
  {
    if es != [] {
      LeftAlone(Step(c, es[0]), es[1..], c', p);
    }
  }

  /**
   The other direction: models that an unaborted fetch settles with are stored for
   its provider, and stay until an invalidation or another catalog for it.
   */
  lemma {:induction false} FetchedIsStored(c: Catalogs, f: FetchId, models: Models, more: seq<Event>, c': Catalogs)
    requires Enabled(c, Settle(f, Loaded(models))) && !c.fetches[f].aborted
    requires Runs(Step(c, Settle(f, Loaded(models))), more, c')
    requires LeavesAlone(Step(c, Settle(f, Loaded(models))), more, c.fetches[f].provider)
    ensures c.fetches[f].provider in c'.stored && c'.stored[c.fetches[f].provider] == Snapshot(models, f)
  {
    LeftAlone(Step(c, Settle(f, Loaded(models))), more, c', c.fetches[f].provider);
  }

  /** Start times are step numbers; `done` are the steps so far. */
  ghost predicate FetchTimed(c: Catalogs, done: seq<Event>, f: FetchId)
    requires f < |c.fetches|
  {
    && c.fetches[f].startedAt < |done|
    && var e := done[c.fetches[f].startedAt];
       && e.Start?
       && (e.failsAtOnce ==> c.fetches[f].settled)
       // Settled without having failed at once: the `finally` block unregistered it.
       && (c.fetches[f].settled && !e.failsAtOnce ==>
             !(c.fetches[f].provider in c.inFlight && c.inFlight[c.fetches[f].provider] == f))
  }

  ghost predicate Timed(c: Catalogs, done: seq<Event>) {
    && c.clock == |done|
    && forall f :: 0 <= f < |c.fetches| ==> FetchTimed(c, done, f)
  }

  lemma {:induction false} StepKeepsFetchTimed(c: Catalogs, done: seq<Event>, e: Event, f: FetchId)
    requires Inv(c) && Timed(c, done) && Enabled(c, e) && f < |c.fetches|
    ensures f < |Step(c, e).fetches| && FetchTimed(Step(c, e), done + [e], f)
  {
    hide RegisteredInv, StoredInv;
    assert FetchTimed(c, done, f) && FetchInv(c, f);
    assert (done + [e])[c.fetches[f].startedAt] == done[c.fetches[f].startedAt];
  }

  lemma {:induction false} StepKeepsTimed(c: Catalogs, done: seq<Event>, e: Event)
    requires Inv(c) && Timed(c, done) && Enabled(c, e)
    ensures Timed(Step(c, e), done + [e])
  {
    hide Inv;
    var c' := Step(c, e);
    forall f | 0 <= f < |c'.fetches| ensures FetchTimed(c', done + [e], f) {
      if f < |c.fetches| {
        StepKeepsFetchTimed(c, done, e, f);
      } else {
        assert (done + [e])[|done|] == e;
      }
    }
  }

  lemma {:induction false} RunKeepsTimed(c: Catalogs, done: seq<Event>, es: seq<Event>, c': Catalogs)
    requires Inv(c) && Timed(c, done) && Runs(c, es, c')
    ensures Inv(c') && Timed(c', done + es)
    decreases |es|
  {
    if es == [] {
      assert done + es == done;
    } else {
      StepKeepsTimed(c, done, es[0]);
      StepKeepsInv(c, es[0]);
      RunKeepsTimed(Step(c, es[0]), done + [es[0]], es[1..], c');
      assert done + [es[0]] + es[1..] == done + es;
    }
  }

  /**
   A provider's registration is dead, its fetch already settled, if and only if
   that fetch threw before its first await, as it does when no key is configured.
   */
  lemma {:induction false} DeadRegistrationIffFailedAtOnce(es: seq<Event>, c: Catalogs, p: Provider)
    requires Runs(EMPTY, es, c) && p in c.inFlight
    ensures c.inFlight[p] < |c.fetches| && c.fetches[c.inFlight[p]].startedAt < |es|
    ensures c.fetches[c.inFlight[p]].settled
            <==> (var e := es[c.fetches[c.inFlight[p]].startedAt]; e.Start? && e.failsAtOnce)
  {
    RunKeepsTimed(EMPTY, [], es, c);
    assert [] + es == es;
    assert RegisteredInv(c, p) && FetchTimed(c, es, c.inFlight[p]);
  }

  /** Once registered, a dead fetch answers every later request until the provider is invalidated. */
  lemma {:induction false} DeadRegistrationStays(c: Catalogs, es: seq<Event>, c': Catalogs, p: Provider)
    requires Runs(c, es, c') && p in c.inFlight && c.inFlight[p] < |c.fetches|
    requires c.fetches[c.inFlight[p]].settled
    requires forall i :: 0 <= i < |es| ==> es[i] != Invalidate(p)
    ensures p in c'.inFlight && c'.inFlight[p] == c.inFlight[p]
    decreases |es|
  {
    if es != [] {
      DeadRegistrationStays(Step(c, es[0]), es[1..], c', p);
    }
  }

  /** The catalog module's own state, changed in place. */
  class CatalogCache {
    var catalogs: Catalogs

    constructor ()
      ensures catalogs == EMPTY
    {
      catalogs := EMPTY;
    }

    /** Returns the fetch whose promise the caller awaits. */
    method FetchProviderCatalogFresh(p: Provider, failsAtOnce: bool) returns (f: FetchId)
      requires Inv(catalogs)
      modifies this
      ensures Inv(catalogs) && catalogs == Step(old(catalogs), Start(p, failsAtOnce))
      ensures p in catalogs.inFlight && catalogs.inFlight[p] == f
    {
      StepKeepsInv(catalogs, Start(p, failsAtOnce));
      if p in catalogs.inFlight {
        f := catalogs.inFlight[p];
      } else {
        f := |catalogs.fetches|;
        catalogs := catalogs.(fetches := catalogs.fetches + [Fetch(p, catalogs.clock, false, failsAtOnce)]);
        if failsAtOnce {
          // The `finally` block runs here: nothing is registered yet, so it removes nothing.
          catalogs := Unregister(catalogs, p, f);
        }
        catalogs := catalogs.(inFlight := catalogs.inFlight[p := f]);
      }
      catalogs := Tick(catalogs);
    }

    method SettleFetch(f: FetchId, o: Outcome)
      requires Inv(catalogs) && Enabled(catalogs, Settle(f, o))
      modifies this
      ensures Inv(catalogs) && catalogs == Step(old(catalogs), Settle(f, o))
    {
      StepKeepsInv(catalogs, Settle(f, o));
      var fetch := catalogs.fetches[f];
      catalogs := catalogs.(fetches := catalogs.fetches[f := fetch.(settled := true)]);
      if o.Loaded? && !fetch.aborted {
        catalogs := catalogs.(stored := catalogs.stored[fetch.provider := Snapshot(o.models, f)]);
      }
      catalogs := Tick(Unregister(catalogs, fetch.provider, f));
    }

    method InvalidateProviderCatalog(p: Provider)
      requires Inv(catalogs)
      modifies this
      ensures Inv(catalogs) && catalogs == Step(old(catalogs), Invalidate(p))
      ensures p !in catalogs.stored && p !in catalogs.inFlight
    {
      StepKeepsInv(catalogs, Invalidate(p));
      var at := catalogs.clock;
      if p in catalogs.inFlight {
        var f := catalogs.inFlight[p];
        catalogs := AbortIn(catalogs, f);
        catalogs := catalogs.(inFlight := catalogs.inFlight - {p});
      }
      if p in catalogs.stored {
        catalogs := catalogs.(stored := catalogs.stored - {p});
      }
      catalogs := Tick(catalogs.(invalidatedAt := catalogs.invalidatedAt[p := at]));
    }
  }
}
