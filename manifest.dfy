/** Cache names and install-time manifests of the service worker (public/sw.js, lines 2-23). */
module Manifest {
  import opened Seqs

  const CACHE_NAME: string := "kids-safety-v1.2.0"
  const EMERGENCY_CACHE: string := "emergency-cache-v1"

  /** Paths cached into the standard cache at install. */
  const ESSENTIAL_FILES: seq<string> := [
    "/",
    "/index.html",
    "/manifest.json",
    "/css/app.css",
    "/js/app.js",
    "/js/pwautils.js",
    "/icons/icon-192.png",
    "/icons/icon-512.png",
    "/icons/safety-alert-192.png"
  ]

  /** Pages cached into the emergency cache at install. */
  const EMERGENCY_FILES: seq<string> := [
    "/emergency.html",
    "/emergency-contacts.html",
    "/offline-safety.html"
  ]

  /** The page served to navigations that fail with nothing cached. */
  const OFFLINE_PAGE: string := "/offline-safety.html"

  /** A root-relative path resolved against the worker's origin, as the Cache API does for string requests. */
  function Resolve(origin: string, path: string): (url: string)
    ensures |url| == |origin| + |path| && url[|origin|..] == path
  {
    origin + path
  }

  /** Every path of `paths`, resolved against `origin`. */
  function ResolveAll(origin: string, paths: seq<string>): (urls: seq<string>)
    ensures |urls| == |paths|
    ensures forall i :: 0 <= i < |paths| ==> urls[i] == Resolve(origin, paths[i])
  {
    seq(|paths|, i requires 0 <= i < |paths| => Resolve(origin, paths[i]))
  }

  /** Distinct paths resolve to distinct URLs. */
  lemma ResolveAllDistinct(origin: string, paths: seq<string>)
    requires Distinct(paths)
    ensures Distinct(ResolveAll(origin, paths))
  {
    var urls := ResolveAll(origin, paths);
    forall i, j | 0 <= i < j < |urls| ensures urls[i] != urls[j] {
      assert urls[i][|origin|..] == paths[i] != paths[j] == urls[j][|origin|..];
    }
  }

  /** Neither manifest lists a path twice, so `addAll` never sees duplicate requests. */
  lemma ManifestsDistinct()
    ensures Distinct(ESSENTIAL_FILES) && Distinct(EMERGENCY_FILES)
  {
  }

  /** The offline fallback page is provisioned by the emergency manifest. */
  lemma OfflinePageIsProvisioned()
    ensures OFFLINE_PAGE in EMERGENCY_FILES && EMERGENCY_FILES[2] == OFFLINE_PAGE
  {
  }
}
