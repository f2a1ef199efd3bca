/**
 * The retry counter of `PWAManager` (src/utils/pwaUtils.js, lines 301-307, 406-427,
 * 463-474) as a value: attempts so far, the delays of the retries scheduled with
 * `setTimeout`, and how many times the "unable to sync" notice was shown.
 */
module RetryPolicy {

  const MAX_RETRIES: nat := 3

  datatype RetryState = RetryState(attempts: nat, scheduled: seq<nat>, notices: nat)

  /** The state a fresh manager starts from. */
  const INITIAL: RetryState := RetryState(0, [], 0)

  function Pow2(k: nat): (r: nat)
    ensures r >= 1
  {
    if k == 0 then 1 else 2 * Pow2(k - 1)
  }

  /** `Math.pow(2, attempts) * 1000` milliseconds. */
  function BackoffDelay(attempts: nat): nat
  {
    Pow2(attempts) * 1000
  }

  /** Each further attempt waits strictly longer: the back-off is exponential. */
  lemma {:induction false} BackoffIncreasing(k: nat, j: nat)
    requires k < j
    ensures BackoffDelay(k) < BackoffDelay(j)
  {
    if j == k + 1 {
      assert Pow2(j) == 2 * Pow2(k);
    } else {
      BackoffIncreasing(k, j - 1);
      assert Pow2(j) == 2 * Pow2(j - 1);
    }
  }

  /**
   * `handleSyncFailure`: one more attempt; a retry is scheduled while the count
   * stays below the cap, and from the cap on the failure notice is shown instead.
   */
  function OnSyncFailure(s: RetryState): (t: RetryState)
    ensures t.attempts == s.attempts + 1
    ensures t.attempts < MAX_RETRIES ==> t.scheduled == s.scheduled + [BackoffDelay(t.attempts)] && t.notices == s.notices
    ensures t.attempts >= MAX_RETRIES ==> t.scheduled == s.scheduled && t.notices == s.notices + 1
  {
    var attempts := s.attempts + 1;
    if attempts < MAX_RETRIES then RetryState(attempts, s.scheduled + [BackoffDelay(attempts)], s.notices)
    else RetryState(attempts, s.scheduled, s.notices + 1)
  }

  /** `n` failures in a row, with no reset between them. */
  function Failures(s: RetryState, n: nat): RetryState
    decreases n
  {
    if n == 0 then s else Failures(OnSyncFailure(s), n - 1)
  }

  /** From a fresh counter, a failure series schedules at most 2000 ms and 4000 ms, then only shows the notice. */
  lemma FailureSeriesFromInitial(n: nat)
    ensures n == 1 ==> Failures(INITIAL, n) == RetryState(1, [2000], 0)
    ensures n >= 2 ==> Failures(INITIAL, n) == RetryState(n, [2000, 4000], n - 2)
  {
    assert BackoffDelay(1) == 2000 && BackoffDelay(2) == 4000;
    if n >= 2 {
      assert Failures(INITIAL, 2) == RetryState(2, [2000, 4000], 0);
      FailuresPastCap(RetryState(2, [2000, 4000], 0), n - 2);
      FailuresCompose(INITIAL, 2, n - 2);
    }
  }

  /** Failures compose. */
  lemma {:induction false} FailuresCompose(s: RetryState, m: nat, n: nat)
    ensures Failures(s, m + n) == Failures(Failures(s, m), n)
    decreases m
  {
    if m > 0 {
      FailuresCompose(OnSyncFailure(s), m - 1, n);
    }
  }

  /** Once the counter has reached the cap minus one, further failures schedule nothing and each shows the notice. */
  lemma {:induction false} FailuresPastCap(s: RetryState, n: nat)
    requires s.attempts >= MAX_RETRIES - 1
    ensures Failures(s, n) == RetryState(s.attempts + n, s.scheduled, s.notices + n)
    decreases n
  {
    if n > 0 {
      FailuresPastCap(OnSyncFailure(s), n - 1);
    }
  }

  /** The retries a failure series schedules wait strictly longer each time. */
  lemma SeriesDelaysIncrease(n: nat, i: nat, j: nat)
    requires i < j < |Failures(INITIAL, n).scheduled|
    ensures Failures(INITIAL, n).scheduled[i] < Failures(INITIAL, n).scheduled[j]
  {
    FailureSeriesFromInitial(n);
  }

  /**
   * How the background-sync registration in `syncPendingData` ended: not supported,
   * all three tags registered, a registration rejected, or `serviceWorker.ready`
   * never settling (no worker controls the page).
   */
  datatype SyncRegistration = Unsupported | Registered | Rejected | NeverSettles

  /**
   * The counter after one `syncPendingData` pass while online, as written: an inner
   * sync failure has already been handled by `syncSafetyData` itself, and the pass
   * then resets the counter unless the registration rejects (handled again) or hangs.
   */
  function AfterSyncPass(s: RetryState, syncFailed: bool, bg: SyncRegistration): (t: RetryState)
    ensures bg == Unsupported || bg == Registered ==> t.attempts == 0
    ensures bg == NeverSettles ==> t == (if syncFailed then OnSyncFailure(s) else s)
    ensures bg == Rejected ==> t == OnSyncFailure(if syncFailed then OnSyncFailure(s) else s)
  {
    var afterSync := if syncFailed then OnSyncFailure(s) else s;
    match bg
    case Unsupported => afterSync.(attempts := 0)
    case Registered => afterSync.(attempts := 0)
    case Rejected => OnSyncFailure(afterSync)
    case NeverSettles => afterSync
  }

  /** A pass that completes leaves the counter at 0: that is the property the code has. */
  lemma CompletedPassResets(s: RetryState, syncFailed: bool, bg: SyncRegistration)
    requires bg == Unsupported || bg == Registered
    ensures AfterSyncPass(s, syncFailed, bg).attempts == 0
  {
  }

  /** `n` passes in a row whose sync fails each time, with the same registration outcome. */
  function FailedPasses(s: RetryState, n: nat, bg: SyncRegistration): RetryState
    decreases n
  {
    if n == 0 then s else FailedPasses(AfterSyncPass(s, true, bg), n - 1, bg)
  }

  /**
   * As written, when the registration completes, a server that keeps failing is
   * retried every 2000 ms without end and the notice never appears: each pass
   * counts its failure and then wipes the count.
   */
  lemma {:induction false} RetryCapUnreachable(n: nat, bg: SyncRegistration)
    requires bg == Unsupported || bg == Registered
    ensures FailedPasses(INITIAL, n, bg) == RetryState(0, seq(n, _ => 2000), 0)
  {
    if n > 0 {
      assert AfterSyncPass(INITIAL, true, bg) == RetryState(0, [2000], 0);
      FailedPassesFromReset(RetryState(0, [2000], 0), n - 1, bg);
      assert [2000] + seq(n - 1, _ => 2000) == seq(n, _ => 2000);
    }
  }

  lemma {:induction false} FailedPassesFromReset(s: RetryState, n: nat, bg: SyncRegistration)
    requires bg == Unsupported || bg == Registered
    requires s.attempts == 0
    ensures FailedPasses(s, n, bg) == RetryState(0, s.scheduled + seq(n, _ => 2000), s.notices)
    decreases n
  {
    if n == 0 {
      assert s.scheduled + seq(0, _ => 2000) == s.scheduled;
    } else {
      var t := AfterSyncPass(s, true, bg);
      assert BackoffDelay(1) == 2000;
      assert t == RetryState(0, s.scheduled + [2000], s.notices);
      FailedPassesFromReset(t, n - 1, bg);
      assert s.scheduled + [2000] + seq(n - 1, _ => 2000) == s.scheduled + seq(n, _ => 2000);
    }
  }

  /**
   * The pass with the failure reported once and not followed by a reset: an inner
   * sync failure ends the pass, so only a pass whose sync went through resets.
   */
  function IntendedSyncPass(s: RetryState, syncFailed: bool, bg: SyncRegistration): (t: RetryState)
    ensures syncFailed ==> t == OnSyncFailure(s)
    ensures !syncFailed ==> t == AfterSyncPass(s, false, bg)
  {
    if syncFailed then OnSyncFailure(s) else AfterSyncPass(s, false, bg)
  }

  function IntendedFailedPasses(s: RetryState, n: nat, bg: SyncRegistration): RetryState
    decreases n
  {
    if n == 0 then s else IntendedFailedPasses(IntendedSyncPass(s, true, bg), n - 1, bg)
  }

  /** Failed passes of the intended kind are exactly a failure series, whatever the registration does. */
  lemma {:induction false} IntendedPassesAreFailures(s: RetryState, n: nat, bg: SyncRegistration)
    ensures IntendedFailedPasses(s, n, bg) == Failures(s, n)
    decreases n
  {
    if n > 0 {
      IntendedPassesAreFailures(OnSyncFailure(s), n - 1, bg);
    }
  }

  /** With the intended pass the cap is reached: retries after 2000 ms and 4000 ms, then the notice. */
  lemma IntendedRetryReachesCap(bg: SyncRegistration)
    ensures IntendedFailedPasses(INITIAL, MAX_RETRIES, bg) == RetryState(3, [2000, 4000], 1)
  {
    IntendedPassesAreFailures(INITIAL, MAX_RETRIES, bg);
    FailureSeriesFromInitial(MAX_RETRIES);
  }
}
