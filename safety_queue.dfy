/**
 * The records of `PWAManager.pendingSafetyData` (src/utils/pwaUtils.js, lines 261-296,
 * 430-452 and 510-539) and the list operations done on them, as values.
 */
module SafetyQueue {
  import opened Seqs

  /** The fields of an alert that `sendSafetyAlert` reads (`type` is `kind`). */
  datatype Alert = Alert(kind: string, message: string, level: string, location: string, timestamp: int)

  /** An alert as `storeSafetyAlert` queues it: the alert's fields, a generated id, when it was stored, and whether it is synced. */
  datatype SafetyRecord = SafetyRecord(alert: Alert, id: string, stored: int, synced: bool)

  predicate IsUnsynced(r: SafetyRecord)
  {
    !r.synced
  }

  /** An alert the emergency sync sends ahead of the rest: critical level or of kind "emergency". */
  predicate IsEmergencyRecord(r: SafetyRecord)
  {
    r.alert.level == "critical" || r.alert.kind == "emergency"
  }

  /** What `forceSyncEmergencyData` selects: unsynced emergency records. */
  predicate IsEmergencyBacklog(r: SafetyRecord)
  {
    !r.synced && IsEmergencyRecord(r)
  }

  /** What survives a successful emergency sync: unsynced records that are not emergencies. */
  predicate IsRoutineBacklog(r: SafetyRecord)
  {
    !r.synced && !IsEmergencyRecord(r)
  }

  /** `filter(item => !item.synced)`: the unsynced records, in their order. */
  function Unsynced(s: seq<SafetyRecord>): seq<SafetyRecord>
  {
    Filter(s, IsUnsynced)
  }

  /** Clearing synced records keeps each unsynced record, drops each synced one, and keeps the order. */
  lemma UnsyncedExact(s: seq<SafetyRecord>, r: SafetyRecord)
    ensures r in Unsynced(s) <==> r in s && !r.synced
    ensures |Unsynced(s)| <= |s|
  {
  }

  /** Clearing twice is clearing once. */
  lemma UnsyncedIdempotent(s: seq<SafetyRecord>)
    ensures Unsynced(Unsynced(s)) == Unsynced(s)
  {
    FilterIdempotent(s, IsUnsynced);
  }

  /** Clearing a queue with an alert appended clears the queue and keeps the new, unsynced alert last. */
  lemma UnsyncedAppend(s: seq<SafetyRecord>, r: SafetyRecord)
    requires !r.synced
    ensures Unsynced(s + [r]) == Unsynced(s) + [r]
  {
    FilterConcat(s, [r], IsUnsynced);
    assert Filter([r], IsUnsynced) == [r];
  }

  /** The record with its `synced` flag set when `p` selects it. */
  function MarkIf(r: SafetyRecord, p: SafetyRecord -> bool): (m: SafetyRecord)
    ensures m.alert == r.alert && m.id == r.id && m.stored == r.stored
    ensures m.synced == (r.synced || p(r))
  {
    if p(r) then r.(synced := true) else r
  }

  /**
   * `selected.forEach(item => item.synced = true)` where `selected` is
   * `s.filter(p)`: the selected records are the queue's own objects, so the
   * flag is set in place on exactly the records `p` holds for.
   */
  function MarkWhere(s: seq<SafetyRecord>, p: SafetyRecord -> bool): (r: seq<SafetyRecord>)
    ensures |r| == |s|
    ensures forall i :: 0 <= i < |s| ==> r[i] == MarkIf(s[i], p)
  {
    if |s| == 0 then [] else [MarkIf(s[0], p)] + MarkWhere(s[1..], p)
  }

  /** After the regular sync marks every unsynced record, clearing leaves the queue empty. */
  lemma {:induction false} ClearAfterSyncIsEmpty(s: seq<SafetyRecord>)
    ensures Unsynced(MarkWhere(s, IsUnsynced)) == []
  {
    if |s| > 0 {
      ClearAfterSyncIsEmpty(s[1..]);
      assert MarkWhere(s, IsUnsynced) == [MarkIf(s[0], IsUnsynced)] + MarkWhere(s[1..], IsUnsynced);
      FilterConcat([MarkIf(s[0], IsUnsynced)], MarkWhere(s[1..], IsUnsynced), IsUnsynced);
      assert Filter([MarkIf(s[0], IsUnsynced)], IsUnsynced) == [];
    }
  }

  /**
   * After the emergency sync marks the emergency backlog, clearing leaves exactly the
   * routine backlog, in its order: emergency records and records synced earlier are gone.
   */
  lemma {:induction false} ClearAfterEmergencySync(s: seq<SafetyRecord>)
    ensures Unsynced(MarkWhere(s, IsEmergencyBacklog)) == Filter(s, IsRoutineBacklog)
  {
    if |s| > 0 {
      ClearAfterEmergencySync(s[1..]);
      var head := MarkIf(s[0], IsEmergencyBacklog);
      assert MarkWhere(s, IsEmergencyBacklog) == [head] + MarkWhere(s[1..], IsEmergencyBacklog);
      FilterConcat([head], MarkWhere(s[1..], IsEmergencyBacklog), IsUnsynced);
      assert s == [s[0]] + s[1..];
      FilterConcat([s[0]], s[1..], IsRoutineBacklog);
      if IsRoutineBacklog(s[0]) {
        assert Filter([head], IsUnsynced) == [s[0]];
        assert Filter([s[0]], IsRoutineBacklog) == [s[0]];
      } else {
        assert Filter([head], IsUnsynced) == [];
        assert Filter([s[0]], IsRoutineBacklog) == [];
      }
    }
  }

  /** A successful emergency sync never touches a record that is not an emergency. */
  lemma RoutineBacklogSurvives(s: seq<SafetyRecord>, r: SafetyRecord)
    requires r in s && IsRoutineBacklog(r)
    ensures r in Unsynced(MarkWhere(s, IsEmergencyBacklog))
  {
    ClearAfterEmergencySync(s);
  }

  /** Of the records still pending after a successful emergency sync, none is an emergency. */
  lemma NoEmergencyLeftAfterEmergencySync(s: seq<SafetyRecord>, i: nat)
    requires i < |Unsynced(MarkWhere(s, IsEmergencyBacklog))|
    ensures !IsEmergencyRecord(Unsynced(MarkWhere(s, IsEmergencyBacklog))[i])
  {
    ClearAfterEmergencySync(s);
  }
}
