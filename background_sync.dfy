/**
 * The service worker's `sync` listener and the `syncSafetyData` replay loop
 * (public/sw.js, lines 86-96 and 318-341). The store of failed requests is a
 * parameter: the worker's own storage helpers are stubs.
 */
module BackgroundSync {
  import opened Http
  import opened Router

  const SAFETY_SYNC_TAG: string := "background-sync-safety"
  const MESSAGES_SYNC_TAG: string := "background-sync-messages"
  const ALERTS_SYNC_TAG: string := "background-sync-alerts"

  /** The job a `sync` event starts. */
  datatype SyncJob = ReplaySafetyData | SyncMessages | SyncAlerts | Ignored

  /** The `sync` listener: each of the three registered tags starts its own job, any other tag nothing. */
  function SyncJobFor(tag: string): (job: SyncJob)
    ensures job == ReplaySafetyData <==> tag == SAFETY_SYNC_TAG
    ensures job == SyncMessages <==> tag == MESSAGES_SYNC_TAG
    ensures job == SyncAlerts <==> tag == ALERTS_SYNC_TAG
  {
    if tag == SAFETY_SYNC_TAG then ReplaySafetyData
    else if tag == MESSAGES_SYNC_TAG then SyncMessages
    else if tag == ALERTS_SYNC_TAG then SyncAlerts
    else Ignored
  }

  /** The `fetch(url, {method, headers, body})` that replays a stored request; the mode is Fetch's default. */
  function Replay(stored: StoredRequest): (r: Request)
    ensures r.url == stored.url && r.verb == stored.verb
    ensures r.headers == stored.headers && r.body == stored.body
  {
    Request(stored.url, stored.verb, "cors", stored.headers, stored.body)
  }

  /** Replaying what `storeFailedRequest` captured sends the original request again, apart from its mode. */
  lemma ReplayOfCapture(req: Request, id: real, storedAt: int)
    ensures Replay(CaptureFailed(req, id, storedAt)) == req.(mode := "cors")
  {
  }

  /**
   * The ids `removeStoredRequest` is called with, in order: those of the stored
   * requests whose replay answered `ok`.
   */
  function SyncedIds(pending: seq<StoredRequest>, outcomes: seq<Fetch>): seq<real>
    requires |pending| == |outcomes|
  {
    if |pending| == 0 then []
    else (if outcomes[0].Succeeded() then [pending[0].id] else []) + SyncedIds(pending[1..], outcomes[1..])
  }

  /** An id is removed exactly when some stored request with that id was answered `ok`. */
  lemma {:induction false} SyncedIdsExact(pending: seq<StoredRequest>, outcomes: seq<Fetch>, id: real)
    requires |pending| == |outcomes|
    ensures id in SyncedIds(pending, outcomes) <==>
      exists i :: 0 <= i < |pending| && pending[i].id == id && outcomes[i].Succeeded()
  {
    if |pending| > 0 {
      SyncedIdsExact(pending[1..], outcomes[1..], id);
      if id in SyncedIds(pending[1..], outcomes[1..]) {
        var i :| 0 <= i < |pending[1..]| && pending[1..][i].id == id && outcomes[1..][i].Succeeded();
        assert pending[i + 1].id == id && outcomes[i + 1].Succeeded();
      }
      if exists i :: 0 <= i < |pending| && pending[i].id == id && outcomes[i].Succeeded() {
        var i :| 0 <= i < |pending| && pending[i].id == id && outcomes[i].Succeeded();
        if i > 0 {
          assert pending[1..][i - 1].id == id && outcomes[1..][i - 1].Succeeded();
        }
      }
    }
  }

  /** No more removals than stored requests, and none at all if every replay failed. */
  lemma {:induction false} SyncedIdsBound(pending: seq<StoredRequest>, outcomes: seq<Fetch>)
    requires |pending| == |outcomes|
    ensures |SyncedIds(pending, outcomes)| <= |pending|
    ensures (forall i :: 0 <= i < |outcomes| ==> !outcomes[i].Succeeded()) ==> SyncedIds(pending, outcomes) == []
  {
    if |pending| > 0 {
      SyncedIdsBound(pending[1..], outcomes[1..]);
      if forall i :: 0 <= i < |outcomes| ==> !outcomes[i].Succeeded() {
        assert !outcomes[0].Succeeded();
        assert forall i :: 0 <= i < |outcomes[1..]| ==> !outcomes[1..][i].Succeeded() by {
          forall i | 0 <= i < |outcomes[1..]| ensures !outcomes[1..][i].Succeeded() {
            assert outcomes[1..][i] == outcomes[i + 1];
          }
        }
      }
    }
  }

  /**
   * `syncSafetyData`: replays every stored request in order, whatever became of
   * the earlier ones (a throw is caught per item), and removes the ones answered `ok`.
   * `sent` are the replayed requests, `removed` the ids passed to `removeStoredRequest`.
   */
  method SyncSafetyData(pending: seq<StoredRequest>, outcomes: seq<Fetch>) returns (sent: seq<Request>, removed: seq<real>)
    requires |pending| == |outcomes|
    ensures |sent| == |pending|
    ensures forall i :: 0 <= i < |pending| ==> sent[i] == Replay(pending[i])
    ensures removed == SyncedIds(pending, outcomes)
  {
    sent := [];
    removed := [];
    var i := 0;
    while i < |pending|
      invariant 0 <= i <= |pending|
      invariant |sent| == i
      invariant forall j :: 0 <= j < i ==> sent[j] == Replay(pending[j])
      invariant removed + SyncedIds(pending[i..], outcomes[i..]) == SyncedIds(pending, outcomes)
    {
      var request := pending[i];
      sent := sent + [Replay(request)];
      assert pending[i..][1..] == pending[i + 1..] && outcomes[i..][1..] == outcomes[i + 1..];
      if outcomes[i].Succeeded() {
        removed := removed + [request.id];
      }
      i := i + 1;
    }
    assert pending[i..] == [];
  }
}
