/**
 * The service worker's `install` and `activate` handlers (public/sw.js, lines 26-66):
 * all-or-nothing provisioning of the two manifests, then removal of every cache of
 * another version.
 */
module Lifecycle {
  import opened Seqs
  import opened Http
  import opened Manifest
  import opened Caches

  /** A cache of the current version, which activation keeps. */
  predicate IsCurrentCache(name: string)
  {
    name == CACHE_NAME || name == EMERGENCY_CACHE
  }

  /** The cache names that survive activation, in creation order. */
  function KeptCaches(names: seq<string>): seq<string>
  {
    Filter(names, IsCurrentCache)
  }

  /** Activation keeps a cache exactly when it exists and has a current name. */
  lemma KeptCachesExact(names: seq<string>, n: string)
    ensures n in KeptCaches(names) <==> n in names && IsCurrentCache(n)
  {
    if n in names && IsCurrentCache(n) {
      var i :| 0 <= i < |names| && names[i] == n;
      assert names[i] in KeptCaches(names);
    }
  }

  /**
   * `caches.open(name).then(cache => cache.addAll(urls))`: afterwards the cache exists,
   * holding the fetched responses if every fetch was accepted and as it was otherwise.
   */
  method Provision(cs: CacheStorage, name: string, urls: seq<string>, outcomes: seq<Fetch>) returns (ok: bool)
    requires cs.Valid() && |urls| == |outcomes| && Distinct(urls)
    modifies cs
    ensures cs.Valid()
    ensures ok == AllAccepted(outcomes)
    ensures cs.names == WithCache(old(cs.names), name)
    ensures cs.stores ==
      old(cs.stores)[name := if ok then PutAll(CacheOrEmpty(old(cs.stores), name), urls, ResponsesOf(outcomes))
                             else CacheOrEmpty(old(cs.stores), name)]
    ensures ok ==> forall i :: 0 <= i < |urls| ==> urls[i] in cs.stores[name] && cs.stores[name][urls[i]] == outcomes[i].response
  {
    cs.Open(name);
    ok := cs.AddAll(name, urls, outcomes);
    if ok {
      PutAllEntries(CacheOrEmpty(old(cs.stores), name), urls, ResponsesOf(outcomes));
    }
  }

  /**
   * The `install` handler. `essential[i]` and `emergency[i]` are what fetching the
   * i-th manifest entry does. Both caches are opened and both `addAll` calls run;
   * the worker installs (and calls `skipWaiting`) only if both batches succeed. A
   * batch that fails leaves its cache as it was, whatever the other batch does.
   */
  method Install(cs: CacheStorage, origin: string, essential: seq<Fetch>, emergency: seq<Fetch>) returns (installed: bool)
    requires cs.Valid()
    requires |essential| == |ESSENTIAL_FILES| && |emergency| == |EMERGENCY_FILES|
    modifies cs
    ensures cs.Valid()
    ensures installed <==> AllAccepted(essential) && AllAccepted(emergency)
    ensures cs.names == WithCache(WithCache(old(cs.names), CACHE_NAME), EMERGENCY_CACHE)
    ensures CACHE_NAME in cs.stores && EMERGENCY_CACHE in cs.stores
    ensures forall n :: n in old(cs.stores) && !IsCurrentCache(n) ==> n in cs.stores && cs.stores[n] == old(cs.stores)[n]
    ensures cs.stores[CACHE_NAME] ==
      if AllAccepted(essential)
      then PutAll(CacheOrEmpty(old(cs.stores), CACHE_NAME), ResolveAll(origin, ESSENTIAL_FILES), ResponsesOf(essential))
      else CacheOrEmpty(old(cs.stores), CACHE_NAME)
    ensures cs.stores[EMERGENCY_CACHE] ==
      if AllAccepted(emergency)
      then PutAll(CacheOrEmpty(old(cs.stores), EMERGENCY_CACHE), ResolveAll(origin, EMERGENCY_FILES), ResponsesOf(emergency))
      else CacheOrEmpty(old(cs.stores), EMERGENCY_CACHE)
    ensures AllAccepted(essential) ==> forall i :: 0 <= i < |ESSENTIAL_FILES| ==>
      Resolve(origin, ESSENTIAL_FILES[i]) in cs.stores[CACHE_NAME] &&
      cs.stores[CACHE_NAME][Resolve(origin, ESSENTIAL_FILES[i])] == essential[i].response
    ensures AllAccepted(emergency) ==> forall i :: 0 <= i < |EMERGENCY_FILES| ==>
      Resolve(origin, EMERGENCY_FILES[i]) in cs.stores[EMERGENCY_CACHE] &&
      cs.stores[EMERGENCY_CACHE][Resolve(origin, EMERGENCY_FILES[i])] == emergency[i].response
  {
    ManifestsDistinct();
    ResolveAllDistinct(origin, ESSENTIAL_FILES);
    ResolveAllDistinct(origin, EMERGENCY_FILES);
    var essentialOk := Provision(cs, CACHE_NAME, ResolveAll(origin, ESSENTIAL_FILES), essential);
    var emergencyOk := Provision(cs, EMERGENCY_CACHE, ResolveAll(origin, EMERGENCY_FILES), emergency);
    installed := essentialOk && emergencyOk;
  }

  /**
   * The `activate` handler: walks the names `caches.keys()` returned and deletes
   * every cache whose name is not current; the surviving caches keep their contents.
   */
  method Activate(cs: CacheStorage)
    requires cs.Valid()
    modifies cs
    ensures cs.Valid()
    ensures cs.names == KeptCaches(old(cs.names))
    ensures forall n :: n in cs.stores ==> n in old(cs.stores) && cs.stores[n] == old(cs.stores)[n]
  {
    var keys := cs.names;
    ghost var stores0 := cs.stores;
    var i := 0;
    while i < |keys|
      invariant 0 <= i <= |keys|
      invariant cs.Valid() && Distinct(keys)
      invariant cs.names == Filter(keys[..i], IsCurrentCache) + keys[i..]
      invariant forall n :: n in cs.stores ==> n in stores0 && cs.stores[n] == stores0[n]
    {
      ActivationStep(cs, keys, i);
      i := i + 1;
    }
    assert keys[..i] == keys;
  }

  /** One iteration of the activation walk: the cache at `keys[i]` is deleted unless current. */
  method ActivationStep(cs: CacheStorage, keys: seq<string>, i: nat)
    requires cs.Valid() && Distinct(keys) && i < |keys|
    requires cs.names == Filter(keys[..i], IsCurrentCache) + keys[i..]
    modifies cs
    ensures cs.Valid()
    ensures cs.names == Filter(keys[..i + 1], IsCurrentCache) + keys[i + 1..]
    ensures forall n :: n in cs.stores ==> n in old(cs.stores) && cs.stores[n] == old(cs.stores)[n]
  {
    FilterWalkStep(keys, i, IsCurrentCache);
    if !IsCurrentCache(keys[i]) {
      var _ := cs.Delete(keys[i]);
    }
  }
}
