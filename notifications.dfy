/**
 * The service worker's `push` and `notificationclick` listeners and the two
 * notification-action handlers (public/sw.js, lines 99-156 and 354-412).
 * Showing a notification, posting a message to a client and opening a window
 * are recorded as values; every `fetch` is given its outcome.
 */
module Notifications {
  import opened Wrappers
  import opened Http

  /** The JSON object a push message carries; each member may be missing or not a string. */
  datatype PushPayload = PushPayload(
    kind: Option<string>,       // `type`
    message: Option<string>,
    body: Option<string>,
    level: Option<string>,
    tag: Option<string>,
    alertId: Option<string>)

  /** What `event.data` yields: no data, data that `json()` rejects (or that parses to `null`), or an object. */
  datatype PushData = NoData | Unparseable | Parsed(payload: PushPayload)

  datatype NotificationAction = NotificationAction(action: string, title: string, icon: string)

  /** The options given to `showNotification`; a member the code leaves out is `None`, `false` or empty. */
  datatype Notification = Notification(
    title: string,
    body: Option<string>,
    icon: string,
    badge: string,
    tag: Option<string>,
    requireInteraction: bool,
    vibrate: seq<nat>,
    actions: seq<NotificationAction>,
    data: Option<PushPayload>)

  const ALERT_ICON: string := "/icons/safety-alert-192.png"
  const BADGE_ICON: string := "/icons/badge-72.png"
  const SIREN: string := "\U{1F6A8}"

  /** The notification shown when a push has no usable data. */
  const DEFAULT_NOTIFICATION: Notification :=
    Notification("Safety Alert", Some("You have a new safety notification"), ALERT_ICON, BADGE_ICON,
                 None, false, [], [], None)

  const ALERT_ACTIONS: seq<NotificationAction> := [
    NotificationAction("open", "Open App", "/icons/open.png"),
    NotificationAction("safe", "I'm Safe", "/icons/safe.png"),
    NotificationAction("help", "Need Help", "/icons/help.png")
  ]

  /** JavaScript truthiness of an optional string: present and not empty. */
  predicate Truthy(o: Option<string>)
  {
    o.Some? && o.value != ""
  }

  /** `o || fallback` for an optional string. */
  function OrElse(o: Option<string>, fallback: string): (r: string)
    ensures Truthy(o) ==> r == o.value
    ensures !Truthy(o) ==> r == fallback
  {
    if Truthy(o) then o.value else fallback
  }

  /** The title of an alert notification: the siren, the alert kind (or "Safety") and "Alert". */
  function AlertTitle(kind: Option<string>): string
  {
    SIREN + " " + OrElse(kind, "Safety") + " Alert"
  }

  /** The `push` listener's choice of notification. */
  function BuildNotification(d: PushData): (n: Notification)
    ensures !d.Parsed? ==> n == DEFAULT_NOTIFICATION
    ensures d.Parsed? ==>
      && n.title == AlertTitle(d.payload.kind)
      && n.body == (if Truthy(d.payload.message) then d.payload.message else d.payload.body)
      && n.tag == Some(OrElse(d.payload.tag, "safety-alert"))
      && (n.requireInteraction <==> d.payload.level == Some("critical"))
      && n.vibrate == [200, 100, 200, 100, 200]
      && n.actions == ALERT_ACTIONS
      && n.data == Some(d.payload)
    ensures n.icon == ALERT_ICON && n.badge == BADGE_ICON
  {
    match d
    case Parsed(p) =>
      Notification(AlertTitle(p.kind),
                   if Truthy(p.message) then p.message else p.body,
                   ALERT_ICON, BADGE_ICON,
                   Some(OrElse(p.tag, "safety-alert")),
                   p.level == Some("critical"),
                   [200, 100, 200, 100, 200],
                   ALERT_ACTIONS,
                   Some(p))
    case _ => DEFAULT_NOTIFICATION
  }

  /** Only a critical alert keeps its notification on screen until the user acts on it. */
  lemma RequireInteractionOnlyWhenCritical(d: PushData)
    ensures BuildNotification(d).requireInteraction <==> d.Parsed? && d.payload.level == Some("critical")
  {
  }

  /** The title tells alert kinds apart: two truthy kinds give the same title only if they are equal. */
  lemma AlertTitleInjective(k1: string, k2: string)
    requires k1 != "" && k2 != ""
    requires AlertTitle(Some(k1)) == AlertTitle(Some(k2))
    ensures k1 == k2
  {
    var t1 := AlertTitle(Some(k1));
    var t2 := AlertTitle(Some(k2));
    var prefix := |SIREN + " "|;
    assert t1 == (SIREN + " ") + k1 + " Alert";
    assert t2 == (SIREN + " ") + k2 + " Alert";
    assert |k1| == |k2|;
    assert t1[prefix..prefix + |k1|] == k1;
    assert t2[prefix..prefix + |k2|] == k2;
  }

  /** An alert without a kind gets the same title as one of kind "Safety". */
  lemma MissingKindReadsAsSafety()
    ensures AlertTitle(None) == AlertTitle(Some("Safety"))
    ensures AlertTitle(Some("")) == AlertTitle(Some("Safety"))
  {
  }

  /** What a notification click leaves behind, in order. */
  datatype Effect =
    | Posted(url: string, headers: seq<Header>, fields: seq<Field>)   // a JSON POST
    | MessagedClients(count: nat, kind: string, data: PushPayload)    // `postMessage` to every client
    | FocusedAndNavigated(path: string)                               // the first open window is focused and navigated
    | OpenedWindow(path: string)

  const JSON_HEADERS: seq<Header> := [Header("Content-Type", "application/json")]
  const SAFE_RESPONSE_URL: string := "/api/safety/safe-response"
  const HELP_REQUEST_URL: string := "/api/safety/help-request"

  /** `JSON.stringify` drops a member whose value is `undefined`. */
  function AlertIdField(alertId: Option<string>): (r: seq<Field>)
    ensures alertId.None? ==> r == []
    ensures alertId.Some? ==> r == [Field("alertId", Str(alertId.value))]
  {
    if alertId.Some? then [Field("alertId", Str(alertId.value))] else []
  }

  /** The body of the "I'm safe" post. */
  function SafeResponseFields(alertId: Option<string>, now: int): seq<Field>
  {
    AlertIdField(alertId) + [Field("response", Str("safe")), Field("timestamp", Num(now))]
  }

  /** The body of the help request. */
  function HelpRequestFields(alertId: Option<string>, now: int): seq<Field>
  {
    AlertIdField(alertId) + [Field("response", Str("help")), Field("timestamp", Num(now)), Field("urgent", Bool(true))]
  }

  /** The help request says what the safe response says, with `response` set to "help" and `urgent: true` added. */
  lemma HelpExtendsSafe(alertId: Option<string>, now: int)
    ensures |HelpRequestFields(alertId, now)| == |SafeResponseFields(alertId, now)| + 1
    ensures forall i :: 0 <= i < |SafeResponseFields(alertId, now)| ==>
      HelpRequestFields(alertId, now)[i] ==
        (if SafeResponseFields(alertId, now)[i].key == "response" then Field("response", Str("help"))
         else SafeResponseFields(alertId, now)[i])
    ensures HelpRequestFields(alertId, now)[|SafeResponseFields(alertId, now)|] == Field("urgent", Bool(true))
  {
  }

  /** `openApp(path)`: focus and navigate the first open window if there is one, else open a new one. */
  function OpenApp(path: string, windows: nat): (effects: seq<Effect>)
    ensures |effects| == 1
    ensures windows > 0 <==> effects[0] == FocusedAndNavigated(path)
    ensures windows == 0 <==> effects[0] == OpenedWindow(path)
  {
    if windows > 0 then [FocusedAndNavigated(path)] else [OpenedWindow(path)]
  }

  /**
   * `sendSafeResponse`: without notification data, reading `data.alertId` throws
   * before anything is sent. Otherwise the post goes out and, unless the fetch
   * rejects, every client is told, whatever status the server answered.
   */
  function SendSafeResponse(data: Option<PushPayload>, net: Fetch, now: int, clients: nat): (effects: seq<Effect>)
    ensures data.None? ==> effects == []
    ensures data.Some? ==> |effects| >= 1 && effects[0] == Posted(SAFE_RESPONSE_URL, JSON_HEADERS, SafeResponseFields(data.value.alertId, now))
    ensures data.Some? && net.Answered? ==> effects == [effects[0], MessagedClients(clients, "SAFE_RESPONSE_SENT", data.value)]
    ensures net.Throws? ==> |effects| <= 1
  {
    match data
    case None => []
    case Some(p) =>
      [Posted(SAFE_RESPONSE_URL, JSON_HEADERS, SafeResponseFields(p.alertId, now))]
        + (if net.Throws? then [] else [MessagedClients(clients, "SAFE_RESPONSE_SENT", p)])
  }

  /**
   * `triggerHelpRequest`: as `sendSafeResponse`, but an answered post opens the
   * app at the help page.
   */
  function TriggerHelpRequest(data: Option<PushPayload>, net: Fetch, now: int, windows: nat): (effects: seq<Effect>)
    ensures data.None? ==> effects == []
    ensures data.Some? ==> |effects| >= 1 && effects[0] == Posted(HELP_REQUEST_URL, JSON_HEADERS, HelpRequestFields(data.value.alertId, now))
    ensures data.Some? && net.Answered? ==> effects[1..] == OpenApp("/emergency-help", windows)
    ensures net.Throws? ==> |effects| <= 1
  {
    match data
    case None => []
    case Some(p) =>
      [Posted(HELP_REQUEST_URL, JSON_HEADERS, HelpRequestFields(p.alertId, now))]
        + (if net.Throws? then [] else OpenApp("/emergency-help", windows))
  }

  /** The `notificationclick` listener: "safe" and "help" run their handlers, every other action opens the dashboard. */
  function OnNotificationClick(action: string, data: Option<PushPayload>, net: Fetch, now: int, clients: nat, windows: nat): (effects: seq<Effect>)
    ensures action == "safe" ==> effects == SendSafeResponse(data, net, now, clients)
    ensures action == "help" ==> effects == TriggerHelpRequest(data, net, now, windows)
    ensures action != "safe" && action != "help" ==> effects == OpenApp("/safety-dashboard", windows)
  {
    if action == "safe" then SendSafeResponse(data, net, now, clients)
    else if action == "help" then TriggerHelpRequest(data, net, now, windows)
    else OpenApp("/safety-dashboard", windows)
  }

  /** A click posts something only for the "safe" and "help" actions, and only when the notification carries data. */
  lemma ClickPostsOnlyWithData(action: string, data: Option<PushPayload>, net: Fetch, now: int, clients: nat, windows: nat)
    ensures (exists i :: 0 <= i < |OnNotificationClick(action, data, net, now, clients, windows)| &&
                         OnNotificationClick(action, data, net, now, clients, windows)[i].Posted?)
            <==> (action == "safe" || action == "help") && data.Some?
  {
    var effects := OnNotificationClick(action, data, net, now, clients, windows);
    if (action == "safe" || action == "help") && data.Some? {
      assert effects[0].Posted?;
    }
  }

  /** The default notification carries no data, so its "safe" and "help" clicks do nothing. */
  lemma DefaultNotificationClicksAreInert(net: Fetch, now: int, clients: nat, windows: nat)
    ensures OnNotificationClick("safe", DEFAULT_NOTIFICATION.data, net, now, clients, windows) == []
    ensures OnNotificationClick("help", DEFAULT_NOTIFICATION.data, net, now, clients, windows) == []
  {
  }
}
