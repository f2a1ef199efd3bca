/**
 * The debounced `online`/`offline` listeners of `PWAManager`
 * (src/utils/pwaUtils.js, lines 34-48). A pending `setTimeout` is recorded as the
 * status it will apply and its delay; `clearTimeout` drops it.
 */
module Connectivity {
  import opened Wrappers

  const DEBOUNCE_MS: nat := 1000

  datatype ConnectivityEvent = WentOnline | WentOffline

  /** A debounce timer waiting to set `isOnline` to `online` after `delay` milliseconds. */
  datatype StatusTimer = StatusTimer(online: bool, delay: nat)

  /** One event: whatever timer was pending is cancelled and a fresh one is started for this event. */
  function OnConnectivityEvent(pending: Option<StatusTimer>, e: ConnectivityEvent): (t: Option<StatusTimer>)
    ensures t.Some? && t.value.delay == DEBOUNCE_MS
    ensures t.value.online <==> e == WentOnline
  {
    Some(StatusTimer(e == WentOnline, DEBOUNCE_MS))
  }

  /** The pending timer after a burst of events that all arrive before any timer fires. */
  function AfterBurst(pending: Option<StatusTimer>, events: seq<ConnectivityEvent>): Option<StatusTimer>
    decreases |events|
  {
    if |events| == 0 then pending else AfterBurst(OnConnectivityEvent(pending, events[0]), events[1..])
  }

  /** Only the last event of a burst takes effect, whatever was pending before and whatever came earlier. */
  lemma {:induction false} LastEventWins(pending: Option<StatusTimer>, events: seq<ConnectivityEvent>)
    requires |events| > 0
    ensures AfterBurst(pending, events) == Some(StatusTimer(events[|events| - 1] == WentOnline, DEBOUNCE_MS))
    decreases |events|
  {
    if |events| > 1 {
      LastEventWins(OnConnectivityEvent(pending, events[0]), events[1..]);
    }
  }

  /** A burst followed by one more event is that event applied to the burst's timer. */
  lemma {:induction false} AfterBurstSnoc(pending: Option<StatusTimer>, events: seq<ConnectivityEvent>, e: ConnectivityEvent)
    ensures AfterBurst(pending, events + [e]) == OnConnectivityEvent(AfterBurst(pending, events), e)
    decreases |events|
  {
    if |events| > 0 {
      assert (events + [e])[1..] == events[1..] + [e];
      AfterBurstSnoc(OnConnectivityEvent(pending, events[0]), events[1..], e);
    }
  }

  /** A burst that begins and ends with the same event leaves the same timer as that event alone. */
  lemma FlappingIsInvisible(pending: Option<StatusTimer>, events: seq<ConnectivityEvent>, e: ConnectivityEvent)
    ensures AfterBurst(pending, [e] + events + [e]) == OnConnectivityEvent(pending, e)
  {
    LastEventWins(pending, [e] + events + [e]);
  }
}
