# Kids Safety PWA: service-worker router and offline sync queue, in Dafny

This project models the two stateful parts of the Kids Safety progressive web app and proves properties of them.

**The service worker (`public/sw.js`)**
- The `fetch` listener routes each request with an ordered substring classifier: Emergency, then Safety API, then static asset, then generic. Each class has its own caching strategy over the browser's CacheStorage.
- The `install` handler provisions the standard and the emergency cache, each batch all-or-nothing.
- The `activate` handler deletes every cache of another version.
- The `sync` listener replays stored failed requests.
- The `push` listener builds a notification from the payload, falling back to a default.
- The `notificationclick` listener posts an "I'm safe" response or a help request, or opens the app.

**The page-side `PWAManager` (`src/utils/pwaUtils.js`)**
- It keeps a queue of safety alerts waiting to be synced.
- It keeps a retry counter with exponential back-off and a cap of three attempts.
- It debounces the online/offline events by 1000 ms.
- It has an emergency mode that force-syncs critical alerts.

**How the model is built**
- CacheStorage is a class (`Caches.CacheStorage`). It holds a sequence of cache names in creation order and a map from each name to its entries. `caches.match` searches the caches in that order.
- The Cache API's own rules are part of the model:
  - `put` refuses a non-GET request or a 206 response;
  - `match` never matches a non-GET request;
  - `addAll` stores all entries or none.
- Each strategy that writes a cache is a method on that object. The Safety API strategy touches no cache, so it is a function.
- Every network fetch is a parameter `Fetch = Answered(response) | Throws`. `ok` means a status from 200 to 299.
- `PWAManager` is a class with the source's fields. Each method names the fields it may change. The retry counter is also available as a value (`RetryPolicy.RetryState`), and the lemmas are stated on that value.
- Timers are recorded, not run:
  - a scheduled retry is the delay appended to `scheduledRetries`;
  - the debounce timer is the status it will apply plus its delay.
- `localStorage` is the field `saved`.
- Clocks, generated ids and the auth token are parameters.

**Where operational code and corrected definitions meet**
- The operational members follow the code as written: the class methods, the strategy methods and `HandleFetch`.
- Where the code evidently misses its intent (see Findings), a corrected definition sits beside the as-written member, with the intended property proved about it.

**What the code does, as the model keeps it**
- Offline, the Safety API strategy answers 202 to every method except a POST with a body. That POST rejects, because `request.text()` runs after `fetch` has used up the body (see Findings). Only POST requests reach `storeFailedRequest`.
- The manager keeps one retry counter for the whole queue. There is no per-record attempt count and no failed state. The only priority path is the emergency force-sync.
- The service worker's storage helpers are stubs: `getStoredRequests` returns `[]`, and `storeFailedRequest` and `removeStoredRequest` only log. The replay loop therefore takes the stored requests as a parameter.
- With notification permission granted, `sendSafetyAlert` constructs a page `Notification` with three actions. The WHATWG Notifications API standard's constructor throws a `TypeError` for that, so the alert is neither shown nor stored (see Findings).

## Model

| member | source | states |
|---|---|---|
| Router.Classify | public/sw.js:74-82 | The class is Emergency iff an emergency literal matches. It is SafetyApi iff no emergency literal matches and an API literal does; StaticAsset and Generic likewise, in that order. |
| Router.ApiEmergencyIsEmergency | public/sw.js:159-169 | Every URL containing `/api/emergency` is classified Emergency. |
| Router.SafetyApiLiteralsThatMatter | public/sw.js:165-169 | A URL classified SafetyApi contains `/api/safety` or `/api/alerts`. The `/api/emergency` literal never decides. |
| Router.SafetyAlertIconIsEmergency | public/sw.js:159-163 | The install-time icon `/icons/safety-alert-192.png` is classified Emergency, not static. |
| Router.IsEmergencyRequest | public/sw.js:159-163 | The Emergency test: the URL contains `/emergency`, `/safety-alert` or `/panic` (used by `Classify`). |
| Router.IsSafetyApiRequest | public/sw.js:165-169 | The Safety API test: the URL contains `/api/safety`, `/api/emergency` or `/api/alerts` (used by `Classify`). |
| Router.IsStaticAsset | public/sw.js:171-180 | The static-asset test over the eight directory and extension literals (used by `Classify`). |
| Router.IsImage | public/sw.js:275 | The URLs whose failed fetch gets the SVG placeholder: `.png` or `.jpg`. |
| Router.JsonIsNeverGeneric | public/sw.js:171-180 | Any `.json` URL matches the `.js` rule, so it is never Generic. |
| Router.ClassifyApiFirst | public/sw.js:165-169 | Corrected dispatch: SafetyApi iff an API literal matches. It agrees with `Classify` on every URL no API literal matches. |
| Router.ApiFirstQueuesOfflineEmergencyPosts | public/sw.js:227-252 | With the corrected dispatch and a cloned request, an offline `/api/emergency` POST is classified SafetyApi, answered 202 and captured. |
| Router.OfflineAck | public/sw.js:240-250 | The offline answer has status 202, a JSON content type, and fields `error: "offline"`, a message, and the timestamp given. |
| Router.CaptureFailed | public/sw.js:415-424 | The stored record copies the request's URL, method, headers and body, with the given id and time and the type "safety". |
| Router.HandleSafetyApiRequest | public/sw.js:227-252 | An answered fetch is returned unchanged and nothing is queued. Offline, a POST with a body is rejected and nothing is stored. Every other offline request gets the 202 answer, and only a POST is captured. |
| Router.HandleSafetyApiRequestCloned | public/sw.js:227-252 | Corrected: every offline request gets 202, and a POST is captured exactly iff offline, with its own body. |
| Router.OfflinePostWithBodyIsLost | public/sw.js:415-424 | For a concrete POST `/api/safety/location` with body `{}` that fails offline: as written it is rejected and not stored; cloned, it is answered 202. |
| Router.ClonedAgreesElsewhere | public/sw.js:227-252 | The two Safety API handlers agree on every input but an offline POST with a body. |
| Router.HandleEmergencyRequest | public/sw.js:183-224 | An answered fetch is returned unchanged. An `ok` one is put into the emergency cache (opened if missing); otherwise the caches are unchanged. Offline, the first cached match is returned, else the "Emergency Mode" page with status 200 and `text/html`. |
| Router.HandleStaticAsset | public/sw.js:255-284 | The network is used iff no cache matches, and a hit is returned as is. An `ok` fetch is put into the standard cache; otherwise the caches are unchanged. Offline, `.png`/`.jpg` URLs get the SVG placeholder and others reject. |
| Router.HandleGenericRequest | public/sw.js:287-315 | An answered fetch is returned. Only an `ok` GET is put into the standard cache; otherwise the caches are unchanged. Offline: the cached match, else the cached offline page for a navigation, else rejection. |
| Router.HandleFetch | public/sw.js:69-83 | Dispatches by `Classify`, passing on each strategy's whole contract. A Safety API request equals the pure handler and leaves the caches alone. An `ok` Emergency answer is opened and put into the emergency cache. A static asset is answered from the cache, or else from the network (put into the standard cache when `ok`), or else with the placeholder for an image or a rejection. A Generic `ok` GET is put into the standard cache. Offline, a Generic request gets its cached copy, then the offline page for a navigation, else a rejection. Only a thrown fetch can reject, never on an Emergency request, and a fetch that is not `ok` changes no cache. |
| Caches.FirstMatch | public/sw.js:256 | `caches.match` searches the caches in creation order; a result is the entry of some cache that holds the URL. |
| Caches.CacheStorage.Match | public/sw.js:256 | A non-GET request never matches; a match is an entry of some existing cache for the URL. |
| Caches.OpenAndPut | public/sw.js:190-191 | After open and put, the cache exists, holds the response for an accepted put, and every other cache is unchanged. The name list it goes with is `WithCache`: `caches.open(name)` adds `name` only when it is missing. |
| Caches.FirstMatchNone | public/sw.js:299-303 | `caches.match` finds nothing iff no cache holds the URL. |
| Caches.FirstMatchEarliest | public/sw.js:256-260 | `caches.match` returns the entry of the earliest-created cache that holds the URL. |
| Caches.PutEntry | public/sw.js:191 | An accepted put stores the response under the request URL and leaves other URLs. A refused put (non-GET or 206) changes nothing. |
| Caches.PutAllEntries | public/sw.js:32-38 | For distinct URLs, `addAll` leaves each URL mapped to its own response and every other URL unchanged. |
| Caches.CacheStorage.Open | public/sw.js:190 | The new names and contents: the cache is appended if missing; otherwise nothing changes. |
| Caches.CacheStorage.Put | public/sw.js:191 | Only the named cache changes, as `PutEntry` says. |
| Caches.CacheStorage.AddAll | public/sw.js:33 | Succeeds iff every fetch is accepted. Then all entries are stored; otherwise nothing is. |
| Caches.CacheStorage.Delete | public/sw.js:57 | Reports whether the cache existed. The cache's name and contents are gone and the order of the rest is kept. |
| Lifecycle.KeptCachesExact | public/sw.js:54-58 | A cache survives activation iff it existed and its name is `kids-safety-v1.2.0` or `emergency-cache-v1`. |
| Lifecycle.Provision | public/sw.js:32-38 | Open then `addAll`. The cache exists afterwards, and holds the fetched responses iff all were accepted. |
| Lifecycle.Install | public/sw.js:26-45 | Installs iff both batches are accepted. Both caches exist and other caches are untouched. Each accepted manifest entry is in its cache with its response; a failed batch leaves its cache as it was. |
| Lifecycle.Activate | public/sw.js:48-60 | The names left are exactly the current ones, in their order. Every surviving cache keeps its contents. |
| Lifecycle.ActivationStep | public/sw.js:54-58 | One iteration: the walked prefix is filtered and the rest is untouched. |
| Manifest.ResolveAllDistinct | public/sw.js:6-23 | Distinct manifest paths resolve to distinct URLs. |
| Manifest.ManifestsDistinct | public/sw.js:6-23 | Neither manifest lists a path twice. |
| Manifest.OfflinePageIsProvisioned | public/sw.js:19-23 | The offline fallback page is in the emergency manifest. |
| BackgroundSync.SyncJobFor | public/sw.js:86-96 | Each of the three registered tags starts its own job, iff the tag matches. Any other tag starts nothing. |
| BackgroundSync.Replay | public/sw.js:324-328 | A replay uses the stored URL, method, headers and body. |
| BackgroundSync.ReplayOfCapture | public/sw.js:415-424 | Replaying a captured request re-sends the original request, apart from its mode. |
| BackgroundSync.SyncedIdsExact | public/sw.js:330-333 | An id is removed iff some stored request with that id was answered `ok`. |
| BackgroundSync.SyncedIdsBound | public/sw.js:322-337 | At most one removal per stored request, and none if every replay failed. |
| BackgroundSync.SyncSafetyData | public/sw.js:318-341 | Every stored request is replayed, in order, whatever happened to earlier ones. The removed ids are exactly those answered `ok`, in order. |
| Notifications.BuildNotification | public/sw.js:102-130 | No data or unparseable data gives the default notification. Otherwise: the siren title with the kind or "Safety"; the message or else the body; the tag or "safety-alert"; `requireInteraction` iff the level is critical; the vibration pattern, the three actions and the data. |
| Notifications.RequireInteractionOnlyWhenCritical | public/sw.js:118 | The notification demands interaction iff the payload parsed and its level is "critical". |
| Notifications.AlertTitle | public/sw.js:113 | The siren title with the kind, or "Safety" (see the two lemmas below). |
| Notifications.AlertTitleInjective | public/sw.js:113 | Two non-empty kinds give the same title only if they are equal. |
| Notifications.MissingKindReadsAsSafety | public/sw.js:113 | A missing or empty kind reads as "Safety". This is the property of `OrElse`, the model of `o || fallback`. |
| Notifications.SafeResponseFields | public/sw.js:359-363 | The "I'm safe" body: `alertId` if present, `response: "safe"` and the time. `alertId` is serialised by `AlertIdField`, which writes it iff present, as `JSON.stringify` drops `undefined`. |
| Notifications.HelpRequestFields | public/sw.js:384-389 | The help body: `alertId` if present, `response: "help"`, the time and `urgent: true`. |
| Notifications.HelpExtendsSafe | public/sw.js:356-390 | The help body is the safe body with `response` set to "help", plus `urgent: true` at the end. |
| Notifications.SendSafeResponse | public/sw.js:354-377 | Without notification data nothing happens. Otherwise the safe response is posted, and every client is told iff the fetch settled, whatever its status. |
| Notifications.TriggerHelpRequest | public/sw.js:379-397 | Without data nothing happens. Otherwise the help request is posted, and the app opens at `/emergency-help` iff the fetch settled. |
| Notifications.OnNotificationClick | public/sw.js:138-156 | "safe" sends the safe response and "help" the help request. Every other action opens `/safety-dashboard`. Opening goes through `OpenApp`: an open window is focused and navigated, otherwise a new window is opened. |
| Notifications.ClickPostsOnlyWithData | public/sw.js:146-155 | A click posts something iff the action is "safe" or "help" and the notification has data. |
| Notifications.DefaultNotificationClicksAreInert | public/sw.js:102-107 | "safe" and "help" clicks on the default notification do nothing. |
| Scenarios.InstallAndActivate | public/sw.js:26-60 | After a complete install and an activation on fresh storage, the caches are standard then emergency, holding the manifest entries. |
| Scenarios.OfflineNavigationIsAnswered | public/sw.js:287-315 | After a complete install, any offline navigation routed as Generic is answered. |
| Scenarios.AlertIconServedStale | public/sw.js:183-202 | A newer alert icon fetched online is returned, but offline the install-time copy is served. |
| Scenarios.OfflineEmergencyPostIsDropped | public/sw.js:195-222 | As written, an offline `/api/emergency` POST is answered 200 with the HTML page and is not queued. |
| Scenarios.GrantedCriticalAlertIsLost | src/utils/pwaUtils.js:615-636 | As written, a fresh manager handed a critical `SAFETY_ALERT` while notifications are permitted turns emergency mode on, but its queue and `localStorage` stay empty and nothing is posted. |
| Seqs.Filter | src/utils/pwaUtils.js:294 | `Array.prototype.filter`: the result has only elements of the input that satisfy the predicate, and every input element that satisfies it. |
| Seqs.Remove | public/sw.js:57 | The name is gone and nothing new appears. |
| Seqs.FilterWalkStep | public/sw.js:54-58 | One deletion step of a walk over distinct names turns the walked prefix into its filter. |
| SafetyQueue.Unsynced | src/utils/pwaUtils.js:294 | `filter(item => !item.synced)`, whose contract is `UnsyncedExact`. |
| SafetyQueue.IsEmergencyBacklog | src/utils/pwaUtils.js:516-518 | The emergency selection: unsynced, and critical or of kind "emergency". |
| SafetyQueue.UnsyncedExact | src/utils/pwaUtils.js:293-296 | A record survives clearing iff it was queued and unsynced, and the length never grows. |
| SafetyQueue.UnsyncedIdempotent | src/utils/pwaUtils.js:293-296 | Clearing twice is clearing once. |
| SafetyQueue.UnsyncedAppend | src/utils/pwaUtils.js:261-271 | Clearing after appending an unsynced alert is clearing and then appending it. |
| SafetyQueue.MarkIf | src/utils/pwaUtils.js:451 | Marking changes only `synced`, which becomes true iff the record was synced or selected. |
| SafetyQueue.MarkWhere | src/utils/pwaUtils.js:451 | The queue keeps its length, and each record is marked iff selected. |
| SafetyQueue.ClearAfterSyncIsEmpty | src/utils/pwaUtils.js:449-452 | After a successful sync marks every unsynced record, clearing empties the queue. |
| SafetyQueue.ClearAfterEmergencySync | src/utils/pwaUtils.js:516-539 | After a successful emergency sync, exactly the unsynced non-emergency records remain, in order. |
| SafetyQueue.RoutineBacklogSurvives | src/utils/pwaUtils.js:516-539 | No unsynced non-emergency record is lost by an emergency sync. |
| SafetyQueue.NoEmergencyLeftAfterEmergencySync | src/utils/pwaUtils.js:516-539 | No emergency record remains after a successful emergency sync. |
| RetryPolicy.BackoffDelay | src/utils/pwaUtils.js:468 | `Math.pow(2, attempts) * 1000` milliseconds, increasing by `BackoffIncreasing`. |
| RetryPolicy.BackoffIncreasing | src/utils/pwaUtils.js:466-469 | More attempts mean a strictly longer delay. |
| RetryPolicy.OnSyncFailure | src/utils/pwaUtils.js:463-474 | Attempts go up by one. Below the cap, a retry with delay 2^attempts × 1000 is scheduled; at the cap or above, the notice is shown instead. |
| RetryPolicy.FailureSeriesFromInitial | src/utils/pwaUtils.js:463-474 | From a fresh counter, failures schedule 2000 ms and then 4000 ms, and every later failure only shows the notice. |
| RetryPolicy.FailuresPastCap | src/utils/pwaUtils.js:470-473 | Past the cap, each failure schedules nothing and shows the notice once. |
| RetryPolicy.SeriesDelaysIncrease | src/utils/pwaUtils.js:466-469 | The delays a failure series schedules strictly increase. |
| RetryPolicy.AfterSyncPass | src/utils/pwaUtils.js:406-427 | A completed pass or an unsupported registration leaves attempts at 0. A rejected registration counts one more failure, and a hanging one leaves the state after the sync. |
| RetryPolicy.CompletedPassResets | src/utils/pwaUtils.js:409-422 | A pass whose registration completes or is unsupported ends with attempts at 0, even after an inner failure. |
| RetryPolicy.RetryCapUnreachable | src/utils/pwaUtils.js:409-425 | As written, n failing passes from a fresh counter schedule n retries of 2000 ms each and never show the notice. |
| RetryPolicy.IntendedPassesAreFailures | src/utils/pwaUtils.js:406-427 | Failing corrected passes are exactly a failure series. `IntendedSyncPass` is the corrected pass: an inner failure is counted once and the pass ends. |
| RetryPolicy.IntendedRetryReachesCap | src/utils/pwaUtils.js:463-474 | With the corrected pass, three failures schedule 2000 ms and 4000 ms, then show the notice once. |
| Connectivity.OnConnectivityEvent | src/utils/pwaUtils.js:34-48 | Any pending timer is replaced by a 1000 ms timer whose status is online iff the event was `online`. |
| Connectivity.LastEventWins | src/utils/pwaUtils.js:34-48 | After a burst, the pending timer is determined by the last event alone. |
| Connectivity.FlappingIsInvisible | src/utils/pwaUtils.js:34-48 | A burst that starts and ends with the same event leaves what that event alone leaves. |
| Scenarios.DebouncedBurst | src/utils/pwaUtils.js:34-48 | On a manager, a burst of `online`/`offline` events followed by the debounce timer sets `isOnline` to the last event's status alone, clears the timer, and syncs the queue iff that status is online. |
| Pwa.SyncHeaders | src/utils/pwaUtils.js:438-441 | JSON content type, then `Authorization: Bearer <token>`. |
| Pwa.PWAManager.constructor | src/utils/pwaUtils.js:3-15 | Online as given, no emergency mode, no timer, an empty queue, the counter at 0, and `localStorage` as the earlier page left it. |
| Pwa.PWAManager.SavePendingSafetyData | src/utils/pwaUtils.js:285-291 | The saved copy is the current queue. |
| Pwa.PWAManager.LoadPendingSafetyData | src/utils/pwaUtils.js:273-283 | A saved queue replaces the current one; with nothing saved the queue stays. |
| Pwa.PWAManager.StoreSafetyAlert | src/utils/pwaUtils.js:261-271 | The queue is the old queue plus one unsynced record with the alert, id and time, and it is saved. |
| Pwa.PWAManager.ClearSyncedSafetyData | src/utils/pwaUtils.js:293-296 | The queue is its unsynced records, and it is saved. |
| Pwa.PWAManager.MarkSynced | src/utils/pwaUtils.js:451 | The loop marks exactly the selected records, in place. |
| Pwa.PWAManager.HandleSyncFailure | src/utils/pwaUtils.js:463-474 | The counter state becomes `OnSyncFailure` of the old one. |
| Pwa.PWAManager.SyncSafetyData | src/utils/pwaUtils.js:430-461 | With nothing unsynced: nothing is sent or changed. Otherwise the unsynced records are posted. `ok` empties the queue; anything else keeps it and counts one failure. |
| Pwa.PWAManager.SyncPendingData | src/utils/pwaUtils.js:406-427 | Offline it does nothing. Online, the counter becomes `AfterSyncPass`. The queue, the saved copy and the post are those of one regular sync: the unsynced records are posted, and an `ok` answer empties the queue and saves it; otherwise nothing changes. |
| Pwa.PWAManager.ForceSyncEmergencyData | src/utils/pwaUtils.js:510-545 | Offline, or with no emergency backlog, it does nothing. Otherwise the backlog is posted with the emergency header. `ok` leaves exactly the routine backlog; a failure changes nothing. |
| Pwa.PWAManager.HandleOnlineStatus | src/utils/pwaUtils.js:301-307 | The counter is reset before the pass, so it ends as `AfterSyncPass` from attempts 0. Online, the queue, the saved copy and the post are those of `SyncPendingData`: empty and saved after an `ok` answer, unchanged otherwise. Offline only the counter is reset. |
| Pwa.PWAManager.OnConnectivity | src/utils/pwaUtils.js:34-48 | Only the timer changes, as `OnConnectivityEvent` says; `isOnline` does not. |
| Pwa.PWAManager.FireStatusTimer | src/utils/pwaUtils.js:36-47 | `isOnline` takes the timer's value and the timer is gone. Going online runs `HandleOnlineStatus`, with its counter, queue, saved copy and post. Going offline changes nothing else. |
| Pwa.PWAManager.EnableEmergencyMode | src/utils/pwaUtils.js:129-137 | The flag is set. Then comes the emergency sync: it posts iff online with an emergency backlog, and after an `ok` answer the queue and the saved copy are the routine backlog. Otherwise both are unchanged. |
| Pwa.PWAManager.DisableEmergencyMode | src/utils/pwaUtils.js:139-142 | The flag is cleared and nothing else may change. |
| Pwa.PWAManager.SendSafetyAlert | src/utils/pwaUtils.js:155-179 | As written: with permission granted, the page notification with actions throws, so the promise rejects and nothing is queued or saved. Without permission the alert is queued unsynced and saved. |
| Pwa.PWAManager.HandleIncomingSafetyAlert | src/utils/pwaUtils.js:631-636 | Without a payload nothing changes. Otherwise: the send as written, not awaited; emergency mode is on iff it was or the alert is critical; for a critical alert, the emergency sync of the queue the send left. The queue, the saved copy and the post equal the reference functions for that sequence. |
| Pwa.QueuedCriticalIsBacklog | src/utils/pwaUtils.js:516-518 | A critical alert appended to an unsynced queue is appended to the emergency backlog and leaves the routine backlog unchanged. |
| Pwa.PWAManager.HandleServiceWorkerMessage | src/utils/pwaUtils.js:615-629 | `EMERGENCY_MODE` has the whole effect of `EnableEmergencyMode` (flag, post, queue, saved copy). `SAFETY_ALERT` with a payload has the whole effect of `HandleIncomingSafetyAlert`. A missing payload, `SYNC_COMPLETE` and other types change nothing. |
| Pwa.PWAManager.CancelStatusTimer | src/utils/pwaUtils.js:35 | `clearTimeout`: no debounce timer is pending afterwards. |
| Pwa.PWAManager.SendSafetyAlertStoredFirst | src/utils/pwaUtils.js:155-179 | Corrected: the alert is stored before the notification is shown through the registration, so it is queued and saved whatever the permission. |
| Pwa.SyncPostFor | src/utils/pwaUtils.js:431-445 | The regular sync's post: present iff some record is unsynced, carrying exactly the unsynced records. |
| Pwa.QueueAfterSync | src/utils/pwaUtils.js:447-458 | The queue after a regular sync: empty after an `ok` post, otherwise as it was. |
| Pwa.SavedAfterSync | src/utils/pwaUtils.js:447-458 | The saved copy after a regular sync: the empty queue after an `ok` post, otherwise as it was. |
| Pwa.EmergencyPostFor | src/utils/pwaUtils.js:510-532 | The emergency post: present iff online with an emergency backlog, carrying exactly that backlog and the emergency header. |
| Pwa.QueueAfterEmergencySync | src/utils/pwaUtils.js:534-538 | The queue after an emergency sync: the routine backlog after an `ok` post, otherwise as it was. |
| Pwa.SavedAfterEmergencySync | src/utils/pwaUtils.js:534-538 | The saved copy after an emergency sync. |
| Pwa.PageNotificationThrows | src/utils/pwaUtils.js:159-172 | The page `Notification` constructor throws iff the options carry actions, and `sendSafetyAlert` passes three. |
| Pwa.QueueAfterSend | src/utils/pwaUtils.js:155-179 | As written: with permission granted the queue is unchanged; without it the alert is appended unsynced. |
| Pwa.QueueAfterIncomingAlert | src/utils/pwaUtils.js:631-636 | The queue after the send and, for a critical alert, the emergency sync of what the send left. |
| Pwa.GrantedAlertIsNotQueued | src/utils/pwaUtils.js:155-179 | As written, with permission granted, the new alert is in the resulting queue only if it was there before. From an empty queue, a critical alert leaves the queue empty and posts nothing. |
| Pwa.StoredFirstCriticalAlertIsForceSynced | src/utils/pwaUtils.js:631-636 | With the alert stored first, a critical alert is always queued. Online it is the last record of the emergency post, and the routine backlog is untouched. |
| Pwa.StoredFirstAgreesWithoutPermission | src/utils/pwaUtils.js:155-179 | Without permission the as-written and the stored-first sends queue the same record. |
| Pwa.PWAManager.Destroy | src/utils/pwaUtils.js:758-763 | The debounce timer is cancelled. |

## Left out
- All DOM work: indicators, banners, guidance, feature styling, the install button and prompt, `showAlertDetails`, and the in-page notification's contents. It is presentation with no state the model needs.
- Platform pass-throughs are left out:
  - geolocation, whose last known location is a parameter of the emergency sync;
  - notification permission and `'Notification' in window`, together a parameter of `SendSafetyAlert`;
  - service-worker registration and its 10 s timeout race;
  - `clients.claim`, `skipWaiting` and `clients.matchAll`. The number of clients and windows is a parameter.
- Background-sync registration is reduced to its outcome (`RetryPolicy.SyncRegistration`). The registration does not start the worker's `sync` listener in this model.
- Visibility handling is left out: a foreground event starts a sync pass (`onAppForeground` calls `syncPendingData`), which is not modelled as an event of its own. The background monitoring and the 30 s safety-check interval are left out too; they only log.
- Scheduled retries are recorded by their delay and are not fired. Firing one is another call to `SyncPendingData`.
- Interleaving of concurrent handlers is left out. Each handler runs to completion, and fire-and-forget `cache.put` calls are applied at once.
- JSON parsing and serialisation are replaced by a value: the parsed push payload, the stored queue, and the JSON bodies as field lists.
- A JSON `null` push payload is treated as unparseable, because `data.type` throws and the default notification is shown. Non-string payload members are not modelled.
- Pwa.PWAManager.EnableEmergencyMode: does not model the `TypeError` thrown afterwards by `this.notifyEmergencyContacts()`, which is not defined anywhere in the file. All modelled effects come before that call. The throw then leaves `handleIncomingSafetyAlert` and `handleServiceWorkerMessage` unfinished only after their last modelled step.
- Router.HandleSafetyApiRequest: an empty body stands for "no body". A POST whose body is the empty string is therefore treated as having nothing for `fetch` to consume.
- BackgroundSync.SyncSafetyData: the outer `catch` for a failing `getStoredRequests` is not modelled, because the stored requests are a parameter.
- Pwa.PWAManager.SavePendingSafetyData: a `localStorage.setItem` that throws (a full or disabled storage) is caught and only logged in the source; the model's save always succeeds.
- Pwa.PWAManager.constructor: the load of an earlier page's queue that `initializeSafetyFeatures` starts after its permission requests is the separate call `LoadPendingSafetyData`, not part of the constructor.
- Pwa.PWAManager.HandleIncomingSafetyAlert: the rejected promise of the as-written `sendSafetyAlert` is not awaited, so it surfaces only as an unhandled rejection, which is not modelled.
- Pwa.PWAManager.LoadPendingSafetyData: the parse-failure path, which resets the queue to `[]`, is not modelled, because the saved copy is always a well-formed queue.

## Findings

| source | as written | input that shows it | evidently intended | confidence | as-written member | corrected member |
|---|---|---|---|---|---|---|
| src/utils/pwaUtils.js:422 | `syncPendingData` resets `retryAttempts` to 0 after `syncSafetyData` has already caught and counted its own failure | a server that answers every sync with a non-`ok` status, with background sync registered or unsupported | a failing pass is counted once and not reset, so retries back off to 2000 ms and 4000 ms and then the failure notice appears | likely; not executed | RetryPolicy.RetryCapUnreachable | RetryPolicy.IntendedRetryReachesCap |
| public/sw.js:167 | the `/api/emergency` literal of `isSafetyAPIRequest` can never decide, since the Emergency rule tried first already matches `/emergency` | an offline `POST /api/emergency/...` | one possible reading: the literal was meant to give these posts Safety API handling (a 202 answer and the request kept for a later sync); the literal may also be merely redundant, since the Emergency-first order looks deliberate | possible; not executed | Scenarios.OfflineEmergencyPostIsDropped | Router.ApiFirstQueuesOfflineEmergencyPosts |
| public/sw.js:421 | `storeFailedRequest` reads `request.text()` after `fetch(request)` has already consumed the body, so it rejects and the handler rejects with it | an offline `POST /api/safety/location` with body `{}` | the request is cloned before it is fetched, so the failure is answered 202 and the body is captured | likely; not executed | Router.OfflinePostWithBodyIsLost | Router.HandleSafetyApiRequestCloned |
| src/utils/pwaUtils.js:159-178 | `sendSafetyAlert` constructs `new Notification(..., { actions: [...] })` in the page before it calls `storeSafetyAlert`; that constructor throws a `TypeError` when actions are given | any safety alert handled while notification permission is granted | the alert is stored first, and the notification is shown through the service-worker registration, which accepts actions | likely; not executed | Pwa.GrantedAlertIsNotQueued | Pwa.StoredFirstCriticalAlertIsForceSynced |
