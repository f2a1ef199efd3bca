/**
 * End-to-end consequences of the handlers run in sequence: a fresh install,
 * activation, then requests while the network is down; and a fresh manager
 * receiving a critical alert.
 */
module Scenarios {
  import opened Wrappers
  import opened Seqs
  import opened Text
  import opened Http
  import opened Manifest
  import opened Caches
  import opened Router
  import opened Lifecycle
  import opened SafetyQueue
  import opened Pwa
  import opened Connectivity
  import opened RetryPolicy

  /** The cache layout a fresh, complete install leaves, which activation then keeps as it is. */
  method InstallAndActivate(origin: string, essential: seq<Fetch>, emergency: seq<Fetch>) returns (cs: CacheStorage)
    requires |essential| == |ESSENTIAL_FILES| && |emergency| == |EMERGENCY_FILES|
    requires AllAccepted(essential) && AllAccepted(emergency)
    ensures fresh(cs) && cs.Valid() && cs.names == [CACHE_NAME, EMERGENCY_CACHE]
    ensures forall i :: 0 <= i < |EMERGENCY_FILES| ==>
      Holds(cs.stores, EMERGENCY_CACHE, Resolve(origin, EMERGENCY_FILES[i])) &&
      cs.stores[EMERGENCY_CACHE][Resolve(origin, EMERGENCY_FILES[i])] == emergency[i].response
    ensures forall i :: 0 <= i < |ESSENTIAL_FILES| ==>
      Holds(cs.stores, CACHE_NAME, Resolve(origin, ESSENTIAL_FILES[i])) &&
      cs.stores[CACHE_NAME][Resolve(origin, ESSENTIAL_FILES[i])] == essential[i].response
  {
    cs := new CacheStorage();
    var installed := Install(cs, origin, essential, emergency);
    assert cs.names == [CACHE_NAME, EMERGENCY_CACHE];
    Activate(cs);
    FilterKeepsAll([CACHE_NAME, EMERGENCY_CACHE], IsCurrentCache);
  }

  /**
   * After a complete install, a page navigation that is routed as Generic is always
   * answered while the network is down: with its cached copy, or with the offline page.
   */
  method OfflineNavigationIsAnswered(origin: string, essential: seq<Fetch>, emergency: seq<Fetch>, url: string)
    returns (reply: Reply)
    requires |essential| == |ESSENTIAL_FILES| && |emergency| == |EMERGENCY_FILES|
    requires AllAccepted(essential) && AllAccepted(emergency)
    requires Classify(url) == Generic
    ensures reply.Respond?
  {
    var cs := InstallAndActivate(origin, essential, emergency);
    var page := Resolve(origin, OFFLINE_PAGE);
    assert Holds(cs.stores, cs.names[1], page) by {
      assert EMERGENCY_FILES[2] == OFFLINE_PAGE;
    }
    FirstMatchNone(cs.names, cs.stores, page);
    var queued;
    reply, queued := HandleFetch(cs, Request(url, "GET", "navigate", [], ""), Throws, origin, 0, 0.0, 0);
  }

  /**
   * The alert icon is cached by the install in the standard cache, but it is routed
   * as Emergency (the `fetch` listener hands it to the emergency strategy): a newer
   * copy fetched online goes to the emergency cache, and offline `caches.match`
   * finds the standard cache's install-time copy first.
   */
  method AlertIconServedStale(origin: string, essential: seq<Fetch>, emergency: seq<Fetch>, newer: Response)
    returns (online: Reply, offline: Reply)
    requires |essential| == |ESSENTIAL_FILES| && |emergency| == |EMERGENCY_FILES|
    requires AllAccepted(essential) && AllAccepted(emergency)
    requires newer.Ok()
    ensures online == Respond(newer)
    ensures offline == Respond(essential[8].response)
  {
    var cs := InstallAndActivate(origin, essential, emergency);
    var icon := Resolve(origin, ESSENTIAL_FILES[8]);
    var req := Get(icon);
    assert icon[|origin|..] == "/icons/safety-alert-192.png";
    assert Contains(icon, "/icons/safety-alert-192.png") by {
      assert "/icons/safety-alert-192.png" <= icon[|origin|..];
    }
    SafetyAlertIconIsEmergency(icon);
    online := HandleEmergencyRequest(cs, req, Answered(newer));
    assert Holds(cs.stores, cs.names[0], icon);
    FirstMatchEarliest(cs.names, cs.stores, icon, 0);
    offline := HandleEmergencyRequest(cs, req, Throws);
  }

  /**
   * As written, an `/api/emergency` POST made while the network is down is routed
   * as Emergency: it is answered 200 with the HTML "Emergency Mode" page and is
   * not handed to `storeFailedRequest`, so nothing records it for a later sync.
   */
  method OfflineEmergencyPostIsDropped(origin: string, essential: seq<Fetch>, emergency: seq<Fetch>, req: Request)
    returns (reply: Reply, queued: Option<StoredRequest>)
    requires |essential| == |ESSENTIAL_FILES| && |emergency| == |EMERGENCY_FILES|
    requires AllAccepted(essential) && AllAccepted(emergency)
    requires Contains(req.url, "/api/emergency") && req.verb == "POST"
    ensures reply == Respond(EMERGENCY_PAGE) && reply.response.status == 200
    ensures queued == None
  {
    var cs := InstallAndActivate(origin, essential, emergency);
    ApiEmergencyIsEmergency(req.url);
    reply, queued := HandleFetch(cs, req, Throws, origin, 0, 0.0, 0);
  }

  /**
   * As written, a fresh manager that receives a critical alert while notifications
   * are permitted switches emergency mode on, but the alert is never queued, so
   * the emergency sync has nothing to post, whatever the network does.
   */
  method GrantedCriticalAlertIsLost(online: bool, alert: Alert, id: string, now: int, net: Fetch, authToken: string)
    returns (m: PWAManager, sent: Option<EmergencyPost>)
    requires alert.level == "critical"
    ensures m.emergencyMode && m.pendingSafetyData == [] && m.saved == None && sent == None
  {
    m := new PWAManager(online, None);
    sent := m.HandleServiceWorkerMessage(SafetyAlertMessage(Some(alert)), id, now, true, net, authToken, None);
    GrantedAlertIsNotQueued([], alert, id, now, online, net, authToken, None);
  }

  /**
   * A burst of `online`/`offline` events delivered to a manager before its debounce
   * timer fires, then the timer: the manager's pending timer follows `AfterBurst`
   * event by event, so only the last event's status is applied.
   */
  method DebouncedBurst(m: PWAManager, events: seq<ConnectivityEvent>, net: Fetch, bg: SyncRegistration, now: int, authToken: string)
    returns (sent: Option<SyncPost>)
    requires m.Valid() && |events| > 0
    modifies m
    ensures m.Valid() && m.networkStatusDebounce == None
    ensures m.isOnline <==> events[|events| - 1] == WentOnline
    ensures !m.isOnline ==> sent == None && m.pendingSafetyData == old(m.pendingSafetyData)
    ensures m.isOnline ==> m.pendingSafetyData == QueueAfterSync(old(m.pendingSafetyData), net)
  {
    ghost var start := m.networkStatusDebounce;
    var i := 0;
    while i < |events|
      invariant 0 <= i <= |events|
      invariant m.Valid() && m.pendingSafetyData == old(m.pendingSafetyData)
      invariant m.networkStatusDebounce == AfterBurst(start, events[..i])
    {
      AfterBurstSnoc(start, events[..i], events[i]);
      assert events[..i + 1] == events[..i] + [events[i]];
      m.OnConnectivity(events[i]);
      i := i + 1;
    }
    assert events[..i] == events;
    LastEventWins(start, events);
    sent := m.FireStatusTimer(net, bg, now, authToken);
  }
}
