/**
 * `PWAManager` (src/utils/pwaUtils.js): the queue of safety alerts waiting to be
 * synced, the retry counter, the debounced connectivity flag and the emergency
 * mode flag. Each `fetch` is given its outcome, `Date.now()` is `now`, generated
 * ids and the stored auth token are parameters, and `localStorage` is the `saved` field.
 */
module Pwa {
  import opened Wrappers
  import opened Seqs
  import opened Http
  import opened SafetyQueue
  import opened RetryPolicy
  import opened Connectivity

  const SYNC_URL: string := "/api/safety/sync"
  const EMERGENCY_SYNC_URL: string := "/api/safety/emergency-sync"

  /** The headers of both sync posts; the token is `localStorage.authToken` or "". */
  function SyncHeaders(authToken: string): (h: seq<Header>)
    ensures |h| == 2 && h[0] == Header("Content-Type", "application/json")
    ensures h[1].name == "Authorization" && |h[1].value| >= 7 && h[1].value[..7] == "Bearer " && h[1].value[7..] == authToken
  {
    [Header("Content-Type", "application/json"), Header("Authorization", "Bearer " + authToken)]
  }

  /** The post of the regular sync: the unsynced records, when, and whether emergency mode is on. */
  datatype SyncPost = SyncPost(url: string, headers: seq<Header>, data: seq<SafetyRecord>, timestamp: int, emergencyMode: bool)

  /** The post of the emergency sync; `location` is dropped from the JSON when unknown. */
  datatype EmergencyPost = EmergencyPost(url: string, headers: seq<Header>, data: seq<SafetyRecord>, timestamp: int, location: Option<string>)

  /** A message from the service worker, by its `type`. */
  datatype WorkerMessage =
    | SafetyAlertMessage(payload: Option<Alert>)
    | SyncCompleteMessage
    | EmergencyModeMessage
    | UnknownMessage(kind: string)

  /** The post of a regular sync from `pending`: present iff some record is unsynced. */
  function SyncPostFor(pending: seq<SafetyRecord>, now: int, authToken: string, emergencyMode: bool): Option<SyncPost>
  {
    if Unsynced(pending) == [] then None
    else Some(SyncPost(SYNC_URL, SyncHeaders(authToken), Unsynced(pending), now, emergencyMode))
  }

  /** A regular sync from `pending` clears the queue: something was posted and the answer is `ok`. */
  predicate SyncClears(pending: seq<SafetyRecord>, net: Fetch)
  {
    Unsynced(pending) != [] && net.Succeeded()
  }

  /** A regular sync from `pending` fails and is counted: something was posted and the answer is not `ok`. */
  predicate SyncFails(pending: seq<SafetyRecord>, net: Fetch)
  {
    Unsynced(pending) != [] && !net.Succeeded()
  }

  /** The queue after a regular sync from `pending`: empty after an `ok` answer, otherwise as it was. */
  function QueueAfterSync(pending: seq<SafetyRecord>, net: Fetch): seq<SafetyRecord>
  {
    if SyncClears(pending, net) then [] else pending
  }

  /** What is in `localStorage` after a regular sync: the empty queue after an `ok` answer, otherwise what was there. */
  function SavedAfterSync(saved: Option<seq<SafetyRecord>>, pending: seq<SafetyRecord>, net: Fetch): Option<seq<SafetyRecord>>
  {
    if SyncClears(pending, net) then Some([]) else saved
  }

  /** `forceSyncEmergencyData` posts: online, with at least one unsynced emergency record. */
  predicate EmergencySyncPosts(pending: seq<SafetyRecord>, online: bool)
  {
    online && Filter(pending, IsEmergencyBacklog) != []
  }

  /** The post of an emergency sync from `pending`. */
  function EmergencyPostFor(pending: seq<SafetyRecord>, online: bool, now: int, authToken: string, location: Option<string>)
    : Option<EmergencyPost>
  {
    if EmergencySyncPosts(pending, online)
    then Some(EmergencyPost(EMERGENCY_SYNC_URL, SyncHeaders(authToken) + [Header("X-Emergency-Mode", "true")],
                            Filter(pending, IsEmergencyBacklog), now, location))
    else None
  }

  /** The queue after an emergency sync: the routine backlog after an `ok` answer, otherwise as it was. */
  function QueueAfterEmergencySync(pending: seq<SafetyRecord>, online: bool, net: Fetch): seq<SafetyRecord>
  {
    if EmergencySyncPosts(pending, online) && net.Succeeded() then Filter(pending, IsRoutineBacklog) else pending
  }

  /** What is in `localStorage` after an emergency sync. */
  function SavedAfterEmergencySync(saved: Option<seq<SafetyRecord>>, pending: seq<SafetyRecord>, online: bool, net: Fetch)
    : Option<seq<SafetyRecord>>
  {
    if EmergencySyncPosts(pending, online) && net.Succeeded() then Some(Filter(pending, IsRoutineBacklog)) else saved
  }

  /** The actions `sendSafetyAlert` puts on the notification it constructs in the page. */
  const PAGE_ALERT_ACTIONS: seq<string> := ["safe", "help", "location"]

  /**
   * `new Notification(title, options)` throws a `TypeError` when `options.actions` is
   * not empty: actions are only for notifications shown through a service-worker
   * registration (the constructor steps of the WHATWG Notifications API standard).
   */
  predicate PageNotificationThrows(actions: seq<string>)
  {
    actions != []
  }

  /**
   * The as-written `sendSafetyAlert` reaches `storeSafetyAlert`: only when the
   * notification branch, whose constructor throws, is not taken.
   */
  predicate SendReachesStore(permissionGranted: bool)
  {
    !(permissionGranted && PageNotificationThrows(PAGE_ALERT_ACTIONS))
  }

  /** The queue after the as-written `sendSafetyAlert`: with permission granted the alert is never stored. */
  function QueueAfterSend(pending: seq<SafetyRecord>, alert: Alert, id: string, now: int, permissionGranted: bool)
    : (q: seq<SafetyRecord>)
    ensures permissionGranted ==> q == pending
    ensures !permissionGranted ==> q == pending + [SafetyRecord(alert, id, now, false)]
  {
    if SendReachesStore(permissionGranted) then pending + [SafetyRecord(alert, id, now, false)] else pending
  }

  /** What is in `localStorage` after the as-written `sendSafetyAlert`. */
  function SavedAfterSend(saved: Option<seq<SafetyRecord>>, pending: seq<SafetyRecord>, alert: Alert, id: string, now: int,
                          permissionGranted: bool): Option<seq<SafetyRecord>>
  {
    if SendReachesStore(permissionGranted) then Some(QueueAfterSend(pending, alert, id, now, permissionGranted)) else saved
  }

  /** The queue after `handleIncomingSafetyAlert`: the send, then for a critical alert the emergency sync. */
  function QueueAfterIncomingAlert(pending: seq<SafetyRecord>, alert: Alert, id: string, now: int, permissionGranted: bool,
                                   online: bool, net: Fetch): seq<SafetyRecord>
  {
    var q := QueueAfterSend(pending, alert, id, now, permissionGranted);
    if alert.level == "critical" then QueueAfterEmergencySync(q, online, net) else q
  }

  /** What is in `localStorage` after `handleIncomingSafetyAlert`. */
  function SavedAfterIncomingAlert(saved: Option<seq<SafetyRecord>>, pending: seq<SafetyRecord>, alert: Alert, id: string,
                                   now: int, permissionGranted: bool, online: bool, net: Fetch): Option<seq<SafetyRecord>>
  {
    var q := QueueAfterSend(pending, alert, id, now, permissionGranted);
    var s := SavedAfterSend(saved, pending, alert, id, now, permissionGranted);
    if alert.level == "critical" then SavedAfterEmergencySync(s, q, online, net) else s
  }

  /** The emergency post `handleIncomingSafetyAlert` makes: only a critical alert starts one. */
  function SentAfterIncomingAlert(pending: seq<SafetyRecord>, alert: Alert, id: string, now: int, permissionGranted: bool,
                                  online: bool, authToken: string, location: Option<string>): Option<EmergencyPost>
  {
    if alert.level == "critical"
    then EmergencyPostFor(QueueAfterSend(pending, alert, id, now, permissionGranted), online, now, authToken, location)
    else None
  }

  /**
   * As written, an alert that arrives while notifications are permitted is lost: it
   * ends up nowhere in the queue that was not there before, and a critical one
   * arriving at an empty queue switches emergency mode on with nothing to sync.
   */
  lemma GrantedAlertIsNotQueued(pending: seq<SafetyRecord>, alert: Alert, id: string, now: int, online: bool, net: Fetch,
                                authToken: string, location: Option<string>)
    ensures SafetyRecord(alert, id, now, false) in QueueAfterIncomingAlert(pending, alert, id, now, true, online, net) ==>
            SafetyRecord(alert, id, now, false) in pending
    ensures pending == [] ==>
            QueueAfterIncomingAlert(pending, alert, id, now, true, online, net) == [] &&
            SentAfterIncomingAlert(pending, alert, id, now, true, online, authToken, location) == None
  {
    if pending == [] {
      assert Filter(pending, IsEmergencyBacklog) == [];
    }
  }

  /** A critical alert appended to a queue of unsynced records is emergency backlog, and the routine backlog is unchanged. */
  lemma QueuedCriticalIsBacklog(s: seq<SafetyRecord>, r: SafetyRecord)
    requires forall i :: 0 <= i < |s| ==> !s[i].synced
    requires !r.synced && r.alert.level == "critical"
    ensures Filter(s + [r], IsEmergencyBacklog) == Filter(s, IsEmergencyBacklog) + [r]
    ensures Filter(s + [r], IsRoutineBacklog) == Filter(s, IsRoutineBacklog)
  {
    FilterConcat(s, [r], IsEmergencyBacklog);
    FilterConcat(s, [r], IsRoutineBacklog);
    assert Filter([r], IsEmergencyBacklog) == [r];
    assert Filter([r], IsRoutineBacklog) == [];
  }

  /** The queue after `sendSafetyAlert` with the alert stored before any notification is attempted. */
  function QueueAfterSendStoredFirst(pending: seq<SafetyRecord>, alert: Alert, id: string, now: int): seq<SafetyRecord>
  {
    pending + [SafetyRecord(alert, id, now, false)]
  }

  /**
   * With the alert stored first, a critical alert is always queued, and online it is
   * the last record of the emergency post, while the routine backlog is untouched
   * whatever the answer.
   */
  lemma StoredFirstCriticalAlertIsForceSynced(pending: seq<SafetyRecord>, alert: Alert, id: string, now: int,
                                              online: bool, net: Fetch, authToken: string, location: Option<string>)
    requires forall i :: 0 <= i < |pending| ==> !pending[i].synced
    requires alert.level == "critical"
    ensures SafetyRecord(alert, id, now, false) in QueueAfterSendStoredFirst(pending, alert, id, now)
    ensures EmergencyPostFor(QueueAfterSendStoredFirst(pending, alert, id, now), online, now, authToken, location) ==
            if online
            then Some(EmergencyPost(EMERGENCY_SYNC_URL, SyncHeaders(authToken) + [Header("X-Emergency-Mode", "true")],
                                    Filter(pending, IsEmergencyBacklog) + [SafetyRecord(alert, id, now, false)], now, location))
            else None
    ensures Filter(QueueAfterEmergencySync(QueueAfterSendStoredFirst(pending, alert, id, now), online, net), IsRoutineBacklog) ==
            Filter(pending, IsRoutineBacklog)
  {
    var r := SafetyRecord(alert, id, now, false);
    var q := pending + [r];
    assert q[|pending|] == r;
    QueuedCriticalIsBacklog(pending, r);
    FilterIdempotent(q, IsRoutineBacklog);
  }

  /** Without permission the two versions of `sendSafetyAlert` queue the same record. */
  lemma StoredFirstAgreesWithoutPermission(pending: seq<SafetyRecord>, alert: Alert, id: string, now: int)
    ensures QueueAfterSend(pending, alert, id, now, false) == QueueAfterSendStoredFirst(pending, alert, id, now)
  {
  }

  class PWAManager {
    var isOnline: bool
    var emergencyMode: bool
    var networkStatusDebounce: Option<StatusTimer>
    var pendingSafetyData: seq<SafetyRecord>
    var retryAttempts: nat
    const maxRetries: nat := MAX_RETRIES
    /** The delays of the `setTimeout(syncPendingData)` retries scheduled so far. */
    var scheduledRetries: seq<nat>
    /** How many times the sync failure notice was shown. */
    var failureNotices: nat
    /** `localStorage.pendingSafetyData`, as last written by this manager. */
    var saved: Option<seq<SafetyRecord>>

    /** Outside an operation the queue, and what was saved of it, holds only unsynced records. */
    ghost predicate Valid()
      reads this
    {
      && (forall i :: 0 <= i < |pendingSafetyData| ==> !pendingSafetyData[i].synced)
      && (saved.Some? ==> forall i :: 0 <= i < |saved.value| ==> !saved.value[i].synced)
    }

    /** The retry counter and what it has scheduled or shown. */
    function Retry(): RetryState
      reads this
    {
      RetryState(retryAttempts, scheduledRetries, failureNotices)
    }

    /**
     * The constructor, with `navigator.onLine` and what `localStorage` already holds
     * given (a queue saved by an earlier page holds only unsynced records); the
     * listeners it installs are the event methods below, and the load it starts is
     * `LoadPendingSafetyData`.
     */
    constructor (online: bool, stored: Option<seq<SafetyRecord>>)
      requires stored.Some? ==> forall i :: 0 <= i < |stored.value| ==> !stored.value[i].synced
      ensures Valid()
      ensures isOnline == online && !emergencyMode && networkStatusDebounce == None
      ensures pendingSafetyData == [] && saved == stored && Retry() == INITIAL
    {
      isOnline := online;
      emergencyMode := false;
      networkStatusDebounce := None;
      pendingSafetyData := [];
      retryAttempts := 0;
      scheduledRetries := [];
      failureNotices := 0;
      saved := stored;
    }

    /** `savePendingSafetyData`: the queue is written out as it is. */
    method SavePendingSafetyData()
      modifies this`saved
      ensures saved == Some(pendingSafetyData)
    {
      saved := Some(pendingSafetyData);
    }

    /** `loadPendingSafetyData`: a saved queue replaces the current one; with nothing saved the queue stays. */
    method LoadPendingSafetyData()
      requires Valid()
      modifies this`pendingSafetyData
      ensures Valid()
      ensures saved.Some? ==> pendingSafetyData == saved.value
      ensures saved.None? ==> pendingSafetyData == old(pendingSafetyData)
    {
      if saved.Some? {
        pendingSafetyData := saved.value;
      }
    }

    /** `storeSafetyAlert`: the alert is appended, unsynced, with its id and time; earlier records stay as they were. */
    method StoreSafetyAlert(alert: Alert, id: string, now: int)
      requires Valid()
      modifies this`pendingSafetyData, this`saved
      ensures Valid()
      ensures pendingSafetyData == old(pendingSafetyData) + [SafetyRecord(alert, id, now, false)]
      ensures saved == Some(pendingSafetyData)
    {
      pendingSafetyData := pendingSafetyData + [SafetyRecord(alert, id, now, false)];
      SavePendingSafetyData();
    }

    /** `clearSyncedSafetyData`: only the unsynced records stay, in their order. */
    method ClearSyncedSafetyData()
      modifies this`pendingSafetyData, this`saved
      ensures pendingSafetyData == Unsynced(old(pendingSafetyData))
      ensures saved == Some(pendingSafetyData)
      ensures Valid()
    {
      pendingSafetyData := Filter(pendingSafetyData, IsUnsynced);
      SavePendingSafetyData();
    }

    /**
     * `pendingSafetyData.filter(p).forEach(item => item.synced = true)`: the
     * filtered records are the queue's own objects, so each record `p` selects is
     * flagged where it stands.
     */
    method MarkSynced(p: SafetyRecord -> bool)
      modifies this`pendingSafetyData
      ensures pendingSafetyData == MarkWhere(old(pendingSafetyData), p)
    {
      var i := 0;
      while i < |pendingSafetyData|
        invariant 0 <= i <= |pendingSafetyData| == |old(pendingSafetyData)|
        invariant forall j :: 0 <= j < i ==> pendingSafetyData[j] == MarkIf(old(pendingSafetyData)[j], p)
        invariant forall j :: i <= j < |pendingSafetyData| ==> pendingSafetyData[j] == old(pendingSafetyData)[j]
      {
        if p(pendingSafetyData[i]) {
          pendingSafetyData := pendingSafetyData[i := pendingSafetyData[i].(synced := true)];
        }
        i := i + 1;
      }
    }

    /** `handleSyncFailure`: counted, then a retry with exponential back-off or, from the cap on, the failure notice. */
    method HandleSyncFailure()
      modifies this`retryAttempts, this`scheduledRetries, this`failureNotices
      ensures Retry() == OnSyncFailure(old(Retry()))
    {
      retryAttempts := retryAttempts + 1;
      if retryAttempts < maxRetries {
        scheduledRetries := scheduledRetries + [BackoffDelay(retryAttempts)];
      } else {
        failureNotices := failureNotices + 1;
      }
    }

    /**
     * `syncSafetyData`: with nothing unsynced, nothing happens and nothing is sent.
     * Otherwise the unsynced records are posted; an `ok` answer empties the queue,
     * anything else leaves the queue as it was and counts one failure. `failed`
     * reports the latter; the method itself never fails.
     */
    method SyncSafetyData(net: Fetch, now: int, authToken: string) returns (sent: Option<SyncPost>, failed: bool)
      requires Valid()
      modifies this`pendingSafetyData, this`saved, this`retryAttempts, this`scheduledRetries, this`failureNotices
      ensures Valid()
      ensures Unsynced(old(pendingSafetyData)) == [] ==>
        sent == None && pendingSafetyData == old(pendingSafetyData) && saved == old(saved) && Retry() == old(Retry())
      ensures Unsynced(old(pendingSafetyData)) != [] ==>
        sent == Some(SyncPost(SYNC_URL, SyncHeaders(authToken), Unsynced(old(pendingSafetyData)), now, emergencyMode))
      ensures failed <==> Unsynced(old(pendingSafetyData)) != [] && !net.Succeeded()
      ensures sent.Some? && !failed ==> pendingSafetyData == [] && saved == Some([]) && Retry() == old(Retry())
      ensures failed ==> pendingSafetyData == old(pendingSafetyData) && saved == old(saved) && Retry() == OnSyncFailure(old(Retry()))
    {
      var batch := Filter(pendingSafetyData, IsUnsynced);
      if |batch| == 0 {
        return None, false;
      }
      sent := Some(SyncPost(SYNC_URL, SyncHeaders(authToken), batch, now, emergencyMode));
      if net.Succeeded() {
        ClearAfterSyncIsEmpty(pendingSafetyData);
        MarkSynced(IsUnsynced);
        ClearSyncedSafetyData();
        failed := false;
      } else {
        HandleSyncFailure();
        failed := true;
      }
    }

    /**
     * `syncPendingData`: nothing while offline. Online, the safety sync runs and then
     * the background-sync registration, whose outcome decides the counter.
     */
    method SyncPendingData(net: Fetch, bg: SyncRegistration, now: int, authToken: string) returns (sent: Option<SyncPost>)
      requires Valid()
      modifies this`pendingSafetyData, this`saved, this`retryAttempts, this`scheduledRetries, this`failureNotices
      ensures Valid()
      ensures !isOnline ==>
        sent == None && pendingSafetyData == old(pendingSafetyData) && saved == old(saved) && Retry() == old(Retry())
      ensures isOnline ==> Retry() == AfterSyncPass(old(Retry()), SyncFails(old(pendingSafetyData), net), bg)
      ensures isOnline ==> pendingSafetyData == QueueAfterSync(old(pendingSafetyData), net)
      ensures isOnline ==> saved == SavedAfterSync(old(saved), old(pendingSafetyData), net)
      ensures isOnline ==> sent == SyncPostFor(old(pendingSafetyData), now, authToken, emergencyMode)
    {
      if !isOnline {
        return None;
      }
      var failed;
      sent, failed := SyncSafetyData(net, now, authToken);
      match bg
      case Rejected => HandleSyncFailure();
      case NeverSettles =>
      case Unsupported => retryAttempts := 0;
      case Registered => retryAttempts := 0;
    }

    /**
     * `forceSyncEmergencyData`: nothing while offline or when no unsynced emergency
     * record is queued. Otherwise those records are posted; an `ok` answer removes
     * exactly them (and any record already synced), and nothing else changes on failure.
     */
    method ForceSyncEmergencyData(net: Fetch, now: int, authToken: string, location: Option<string>) returns (sent: Option<EmergencyPost>)
      requires Valid()
      modifies this`pendingSafetyData, this`saved
      ensures Valid()
      ensures !isOnline || Filter(old(pendingSafetyData), IsEmergencyBacklog) == [] ==>
        sent == None && pendingSafetyData == old(pendingSafetyData) && saved == old(saved)
      ensures isOnline && Filter(old(pendingSafetyData), IsEmergencyBacklog) != [] ==>
        sent == Some(EmergencyPost(EMERGENCY_SYNC_URL, SyncHeaders(authToken) + [Header("X-Emergency-Mode", "true")],
                                   Filter(old(pendingSafetyData), IsEmergencyBacklog), now, location))
      ensures sent.Some? && net.Succeeded() ==>
        pendingSafetyData == Filter(old(pendingSafetyData), IsRoutineBacklog) && saved == Some(pendingSafetyData)
      ensures sent.Some? && !net.Succeeded() ==> pendingSafetyData == old(pendingSafetyData) && saved == old(saved)
    {
      if !isOnline {
        return None;
      }
      var batch := Filter(pendingSafetyData, IsEmergencyBacklog);
      if |batch| == 0 {
        return None;
      }
      sent := Some(EmergencyPost(EMERGENCY_SYNC_URL, SyncHeaders(authToken) + [Header("X-Emergency-Mode", "true")],
                                 batch, now, location));
      if net.Succeeded() {
        ClearAfterEmergencySync(pendingSafetyData);
        MarkSynced(IsEmergencyBacklog);
        ClearSyncedSafetyData();
      }
    }

    /**
     * `handleOnlineStatus`: the counter is reset and a sync pass starts. The reset
     * comes first: the pass runs up to its first `await` and the rest of this
     * method, the reset included, runs before the pass resumes.
     */
    method HandleOnlineStatus(net: Fetch, bg: SyncRegistration, now: int, authToken: string) returns (sent: Option<SyncPost>)
      requires Valid()
      modifies this`pendingSafetyData, this`saved, this`retryAttempts, this`scheduledRetries, this`failureNotices
      ensures Valid()
      ensures !isOnline ==>
        sent == None && pendingSafetyData == old(pendingSafetyData) && saved == old(saved) &&
        Retry() == old(Retry()).(attempts := 0)
      ensures isOnline ==> Retry() == AfterSyncPass(old(Retry()).(attempts := 0), SyncFails(old(pendingSafetyData), net), bg)
      ensures isOnline ==> pendingSafetyData == QueueAfterSync(old(pendingSafetyData), net)
      ensures isOnline ==> saved == SavedAfterSync(old(saved), old(pendingSafetyData), net)
      ensures isOnline ==> sent == SyncPostFor(old(pendingSafetyData), now, authToken, emergencyMode)
    {
      retryAttempts := 0;
      sent := SyncPendingData(net, bg, now, authToken);
    }

    /** The `online` and `offline` listeners: the pending debounce timer is replaced; the flag itself waits for the timer. */
    method OnConnectivity(e: ConnectivityEvent)
      modifies this`networkStatusDebounce
      ensures networkStatusDebounce == OnConnectivityEvent(old(networkStatusDebounce), e)
    {
      CancelStatusTimer();
      networkStatusDebounce := Some(StatusTimer(e == WentOnline, DEBOUNCE_MS));
    }

    /** `clearTimeout(this.networkStatusDebounce)`. */
    method CancelStatusTimer()
      modifies this`networkStatusDebounce
      ensures networkStatusDebounce == None
    {
      networkStatusDebounce := None;
    }

    /**
     * The debounce timer fires: `isOnline` takes the timer's value, and going online
     * runs `handleOnlineStatus` (going offline only changes what the page shows).
     */
    method FireStatusTimer(net: Fetch, bg: SyncRegistration, now: int, authToken: string) returns (sent: Option<SyncPost>)
      requires Valid() && networkStatusDebounce.Some?
      modifies this`isOnline, this`networkStatusDebounce
      modifies this`pendingSafetyData, this`saved, this`retryAttempts, this`scheduledRetries, this`failureNotices
      ensures Valid()
      ensures isOnline == old(networkStatusDebounce).value.online && networkStatusDebounce == None
      ensures !isOnline ==>
        sent == None && pendingSafetyData == old(pendingSafetyData) && saved == old(saved) && Retry() == old(Retry())
      ensures isOnline ==> Retry() == AfterSyncPass(old(Retry()).(attempts := 0), SyncFails(old(pendingSafetyData), net), bg)
      ensures isOnline ==> pendingSafetyData == QueueAfterSync(old(pendingSafetyData), net)
      ensures isOnline ==> saved == SavedAfterSync(old(saved), old(pendingSafetyData), net)
      ensures isOnline ==> sent == SyncPostFor(old(pendingSafetyData), now, authToken, emergencyMode)
    {
      isOnline := networkStatusDebounce.value.online;
      networkStatusDebounce := None;
      sent := None;
      if isOnline {
        sent := HandleOnlineStatus(net, bg, now, authToken);
      }
    }

    /**
     * `enableEmergencyMode`: the flag is set and the emergency sync starts. (The
     * call to `notifyEmergencyContacts` that follows throws, after all of this.)
     */
    method EnableEmergencyMode(net: Fetch, now: int, authToken: string, location: Option<string>) returns (sent: Option<EmergencyPost>)
      requires Valid()
      modifies this`emergencyMode, this`pendingSafetyData, this`saved
      ensures Valid()
      ensures emergencyMode
      ensures sent == EmergencyPostFor(old(pendingSafetyData), isOnline, now, authToken, location)
      ensures pendingSafetyData == QueueAfterEmergencySync(old(pendingSafetyData), isOnline, net)
      ensures saved == SavedAfterEmergencySync(old(saved), old(pendingSafetyData), isOnline, net)
    {
      emergencyMode := true;
      sent := ForceSyncEmergencyData(net, now, authToken, location);
    }

    /** `disableEmergencyMode`: the flag is cleared and nothing else changes. */
    method DisableEmergencyMode()
      modifies this`emergencyMode
      ensures !emergencyMode
    {
      emergencyMode := false;
    }

    /**
     * `sendSafetyAlert` as written. With permission granted it constructs a page
     * notification carrying actions, which throws, so the returned promise rejects
     * before `storeSafetyAlert` runs and no notification appears. Without
     * permission the alert is stored. `rejected` says whether the promise rejects.
     */
    method SendSafetyAlert(alert: Alert, id: string, now: int, permissionGranted: bool) returns (rejected: bool)
      requires Valid()
      modifies this`pendingSafetyData, this`saved
      ensures Valid()
      ensures rejected == permissionGranted
      ensures pendingSafetyData == QueueAfterSend(old(pendingSafetyData), alert, id, now, permissionGranted)
      ensures saved == SavedAfterSend(old(saved), old(pendingSafetyData), alert, id, now, permissionGranted)
    {
      if permissionGranted && PageNotificationThrows(PAGE_ALERT_ACTIONS) {
        return true;
      }
      rejected := false;
      StoreSafetyAlert(alert, id, now);
    }

    /**
     * `sendSafetyAlert` with the alert stored before the notification, and the
     * notification shown through the service-worker registration, which accepts
     * actions: the alert is queued in every case, and `shown` says whether a
     * notification appeared.
     */
    method SendSafetyAlertStoredFirst(alert: Alert, id: string, now: int, permissionGranted: bool) returns (shown: bool)
      requires Valid()
      modifies this`pendingSafetyData, this`saved
      ensures Valid()
      ensures shown == permissionGranted
      ensures pendingSafetyData == QueueAfterSendStoredFirst(old(pendingSafetyData), alert, id, now)
      ensures saved == Some(pendingSafetyData)
    {
      StoreSafetyAlert(alert, id, now);
      shown := permissionGranted;
    }

    /**
     * `handleIncomingSafetyAlert`: the send is started and not awaited, and a critical
     * alert then switches emergency mode on (which force-syncs). A message without a
     * payload fails on its first property read and changes nothing.
     */
    method HandleIncomingSafetyAlert(payload: Option<Alert>, id: string, now: int, permissionGranted: bool,
                                     net: Fetch, authToken: string, location: Option<string>)
      returns (sent: Option<EmergencyPost>)
      requires Valid()
      modifies this`emergencyMode, this`pendingSafetyData, this`saved
      ensures Valid()
      ensures payload.None? ==>
        sent == None && emergencyMode == old(emergencyMode) && pendingSafetyData == old(pendingSafetyData) && saved == old(saved)
      ensures payload.Some? ==> emergencyMode == (old(emergencyMode) || payload.value.level == "critical")
      ensures payload.Some? ==>
        pendingSafetyData == QueueAfterIncomingAlert(old(pendingSafetyData), payload.value, id, now, permissionGranted, isOnline, net)
      ensures payload.Some? ==>
        saved == SavedAfterIncomingAlert(old(saved), old(pendingSafetyData), payload.value, id, now, permissionGranted, isOnline, net)
      ensures payload.Some? ==>
        sent == SentAfterIncomingAlert(old(pendingSafetyData), payload.value, id, now, permissionGranted, isOnline, authToken, location)
    {
      sent := None;
      if payload.None? {
        return;
      }
      var alert := payload.value;
      var _ := SendSafetyAlert(alert, id, now, permissionGranted);
      if alert.level == "critical" {
        sent := EnableEmergencyMode(net, now, authToken, location);
      }
    }

    /**
     * `handleServiceWorkerMessage`: a safety alert is handled as above, `EMERGENCY_MODE`
     * switches emergency mode on, and `SYNC_COMPLETE` or any other type only logs.
     */
    method HandleServiceWorkerMessage(msg: WorkerMessage, id: string, now: int, permissionGranted: bool,
                                      net: Fetch, authToken: string, location: Option<string>)
      returns (sent: Option<EmergencyPost>)
      requires Valid()
      modifies this`emergencyMode, this`pendingSafetyData, this`saved
      ensures Valid()
      ensures msg.EmergencyModeMessage? ==>
        emergencyMode &&
        sent == EmergencyPostFor(old(pendingSafetyData), isOnline, now, authToken, location) &&
        pendingSafetyData == QueueAfterEmergencySync(old(pendingSafetyData), isOnline, net) &&
        saved == SavedAfterEmergencySync(old(saved), old(pendingSafetyData), isOnline, net)
      ensures msg.SafetyAlertMessage? && msg.payload.Some? ==>
        var alert := msg.payload.value;
        emergencyMode == (old(emergencyMode) || alert.level == "critical") &&
        sent == SentAfterIncomingAlert(old(pendingSafetyData), alert, id, now, permissionGranted, isOnline, authToken, location) &&
        pendingSafetyData == QueueAfterIncomingAlert(old(pendingSafetyData), alert, id, now, permissionGranted, isOnline, net) &&
        saved == SavedAfterIncomingAlert(old(saved), old(pendingSafetyData), alert, id, now, permissionGranted, isOnline, net)
      ensures (msg.SafetyAlertMessage? && msg.payload.None?) || msg.SyncCompleteMessage? || msg.UnknownMessage? ==>
        sent == None && emergencyMode == old(emergencyMode) && pendingSafetyData == old(pendingSafetyData) && saved == old(saved)
    {
      match msg
      case SafetyAlertMessage(payload) =>
        sent := HandleIncomingSafetyAlert(payload, id, now, permissionGranted, net, authToken, location);
      case SyncCompleteMessage =>
        sent := None;
      case EmergencyModeMessage =>
        sent := EnableEmergencyMode(net, now, authToken, location);
      case UnknownMessage(_) =>
        sent := None;
    }

    /** `destroy`: the pending debounce timer is cancelled. */
    method Destroy()
      modifies this`networkStatusDebounce
      ensures networkStatusDebounce == None
    {
      CancelStatusTimer();
    }
  }
}
