/**
 * The browser's CacheStorage as the service worker uses it: named caches kept
 * in creation order, each mapping a request URL to a stored response.
 */
module Caches {
  import opened Wrappers
  import opened Seqs
  import opened Http

  type Store = map<string, Response>

  /** The cache called `name` holds an entry for `url`. */
  predicate Holds(stores: map<string, Store>, name: string, url: string)
  {
    name in stores && url in stores[name]
  }

  /** The entry for `url` in the first cache of `names` that holds one (`caches.match` searches every cache). */
  function FirstMatch(names: seq<string>, stores: map<string, Store>, url: string): (r: Option<Response>)
    ensures r.Some? ==> exists i :: 0 <= i < |names| && Holds(stores, names[i], url) && r.value == stores[names[i]][url]
  {
    if names == [] then None
    else if Holds(stores, names[0], url) then Some(stores[names[0]][url])
    else FirstMatch(names[1..], stores, url)
  }

  /** A match finds nothing exactly when no cache holds the URL. */
  lemma {:induction false} FirstMatchNone(names: seq<string>, stores: map<string, Store>, url: string)
    ensures FirstMatch(names, stores, url) == None <==>
            forall i :: 0 <= i < |names| ==> !Holds(stores, names[i], url)
  {
    if names != [] {
      FirstMatchNone(names[1..], stores, url);
      assert forall i :: 1 <= i < |names| ==> names[i] == names[1..][i - 1];
    }
  }

  /** A match returns the entry of the earliest-created cache that holds the URL. */
  lemma {:induction false} FirstMatchEarliest(names: seq<string>, stores: map<string, Store>, url: string, k: nat)
    requires k < |names| && Holds(stores, names[k], url)
    requires forall j :: 0 <= j < k ==> !Holds(stores, names[j], url)
    ensures FirstMatch(names, stores, url) == Some(stores[names[k]][url])
  {
    if k > 0 {
      assert !Holds(stores, names[0], url);
      forall j | 0 <= j < k - 1 ensures !Holds(stores, names[1..][j], url) {
        assert names[1..][j] == names[j + 1];
      }
      FirstMatchEarliest(names[1..], stores, url, k - 1);
    }
  }

  /** The creation-ordered names after `caches.open(name)`. */
  function WithCache(names: seq<string>, name: string): (r: seq<string>)
    ensures name in r && forall n :: n in names ==> n in r
  {
    if name in names then names else names + [name]
  }

  /** The cache called `name`, or the empty cache that `caches.open` creates when there is none. */
  function CacheOrEmpty(stores: map<string, Store>, name: string): Store
  {
    if name in stores then stores[name] else map[]
  }

  /** `store` after `cache.put(req, resp)`, which the Cache API refuses for a non-GET request or a 206 response. */
  function PutEntry(store: Store, req: Request, resp: Response): (r: Store)
    ensures CachePutAccepts(req, resp) ==> req.url in r && r[req.url] == resp
    ensures forall u :: u != req.url ==> (u in r <==> u in store)
    ensures forall u :: u != req.url && u in store ==> r[u] == store[u]
    ensures !CachePutAccepts(req, resp) ==> r == store
  {
    if CachePutAccepts(req, resp) then store[req.url := resp] else store
  }

  /** The cache contents after `caches.open(name)` and then `cache.put(req, resp)` on that cache. */
  function OpenAndPut(stores: map<string, Store>, name: string, req: Request, resp: Response): (r: map<string, Store>)
    ensures name in r && forall n :: n in stores ==> n in r
    ensures CachePutAccepts(req, resp) ==> Holds(r, name, req.url) && r[name][req.url] == resp
    ensures forall n :: n != name && n in stores ==> r[n] == stores[n]
  {
    stores[name := PutEntry(CacheOrEmpty(stores, name), req, resp)]
  }

  /** Every fetch of an `addAll` batch was accepted. */
  predicate AllAccepted(outcomes: seq<Fetch>)
  {
    forall i :: 0 <= i < |outcomes| ==> AddAllAccepts(outcomes[i])
  }

  /** `store` with `urls[i]` mapped to `responses[i]`, later positions overwriting earlier ones. */
  function PutAll(store: Store, urls: seq<string>, responses: seq<Response>): Store
    requires |urls| == |responses|
  {
    if urls == [] then store
    else PutAll(store, urls[..|urls| - 1], responses[..|urls| - 1])[urls[|urls| - 1] := responses[|urls| - 1]]
  }

  /** Storing a batch of distinct URLs maps each URL to its own response and leaves every other key as it was. */
  lemma {:induction false} PutAllEntries(store: Store, urls: seq<string>, responses: seq<Response>)
    requires |urls| == |responses| && Distinct(urls)
    ensures forall i :: 0 <= i < |urls| ==> urls[i] in PutAll(store, urls, responses) &&
                                            PutAll(store, urls, responses)[urls[i]] == responses[i]
    ensures forall u :: u !in urls ==> (u in PutAll(store, urls, responses) <==> u in store)
    ensures forall u :: u !in urls && u in store ==> PutAll(store, urls, responses)[u] == store[u]
  {
    if urls != [] {
      var n := |urls| - 1;
      var front, rs := urls[..n], responses[..n];
      assert Distinct(front);
      PutAllEntries(store, front, rs);
      forall i | 0 <= i < n ensures urls[i] != urls[n] && urls[i] == front[i] && responses[i] == rs[i] {
      }
      forall u | u !in urls ensures u !in front {
        forall j | 0 <= j < n ensures front[j] != u {
          assert front[j] == urls[j];
        }
      }
    }
  }

  class CacheStorage {
    /** Cache names in creation order (what `caches.keys()` returns). */
    var names: seq<string>
    /** The contents of each named cache. */
    var stores: map<string, Store>

    ghost predicate Valid()
      reads this
    {
      Distinct(names) && forall n :: n in stores <==> n in names
    }

    constructor ()
      ensures Valid() && names == [] && stores == map[]
    {
      names := [];
      stores := map[];
    }

    /** `caches.match(request)`: the Cache API never matches a request other than a GET. */
    function Match(req: Request): (r: Option<Response>)
      reads this
      ensures req.verb != "GET" ==> r.None?
      ensures r.Some? ==> exists n :: n in names && Holds(stores, n, req.url) && r.value == stores[n][req.url]
    {
      if req.verb == "GET" then FirstMatch(names, stores, req.url) else None
    }

    /** `caches.open(name)`: creates the cache, last in creation order, if it does not exist. */
    method Open(name: string)
      requires Valid()
      modifies this
      ensures Valid() && name in stores
      ensures names == WithCache(old(names), name)
      ensures stores == old(stores)[name := CacheOrEmpty(old(stores), name)]
    {
      if name !in names {
        names := names + [name];
        stores := stores[name := map[]];
      }
    }

    /** `cache.put(request, response)` on the cache called `name`; a put the Cache API refuses changes nothing. */
    method Put(name: string, req: Request, resp: Response)
      requires Valid() && name in stores
      modifies this
      ensures Valid() && names == old(names)
      ensures stores == old(stores)[name := PutEntry(old(stores)[name], req, resp)]
    {
      stores := stores[name := PutEntry(stores[name], req, resp)];
    }

    /**
     * `cache.addAll(urls)` on the cache called `name`, where `outcomes[i]` is what fetching
     * `urls[i]` does: all entries are stored if every fetch is accepted, none otherwise.
     */
    method AddAll(name: string, urls: seq<string>, outcomes: seq<Fetch>) returns (ok: bool)
      requires Valid() && name in stores && |urls| == |outcomes|
      modifies this
      ensures Valid() && names == old(names)
      ensures ok == AllAccepted(outcomes)
      ensures ok ==> stores == old(stores)[name := PutAll(old(stores)[name], urls, ResponsesOf(outcomes))]
      ensures !ok ==> stores == old(stores)
    {
      ok := AllAccepted(outcomes);
      if ok {
        stores := stores[name := PutAll(stores[name], urls, ResponsesOf(outcomes))];
      }
    }

    /** `caches.delete(name)`: reports whether the cache existed. */
    method Delete(name: string) returns (existed: bool)
      requires Valid()
      modifies this
      ensures Valid()
      ensures existed == (name in old(names))
      ensures names == Remove(old(names), name)
      ensures stores == old(stores) - {name}
    {
      existed := name in names;
      RemoveDistinct(names, name);
      names := Remove(names, name);
      stores := stores - {name};
    }
  }

  /** The responses of a batch of fetches that all answered. */
  function ResponsesOf(outcomes: seq<Fetch>): (rs: seq<Response>)
    requires AllAccepted(outcomes)
    ensures |rs| == |outcomes|
    ensures forall i :: 0 <= i < |outcomes| ==> rs[i] == outcomes[i].response
  {
    seq(|outcomes|, i requires 0 <= i < |outcomes| && AllAccepted(outcomes) => outcomes[i].response)
  }
}
