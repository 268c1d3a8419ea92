/**
 What an observer of an offline migration sees: the volume checkpoints as they become
 durable, and every call that reserves, copies, cleans up, switches or restores a volume.
 */
module OfflineLog {
  import opened Lifecycle
  import opened Checkpoints
  import opened OfflineRecords

  datatype Event =
    | Stored(record: ClusterRecord)          // the record became durable
    | Returned(volume: nat, checkpoint: ClusterReservation) // what the reserver answered
    | Copied(volume: nat, attempt: int)      // a copy of the volume was started
    | Cleaned(volume: nat, attempt: int)     // the tools of that attempt were released
    | Succeeded(volume: nat, attempt: int)   // that attempt transferred everything
    | Switched(volume: nat)                  // the switcher was called for the volume
    | Restored(volume: nat)                  // the restorer was called for the volume

  datatype Work = Work(
    newest: map<nat, int>,  // the newest attempt copied, per volume
    open: set<nat>,         // the volumes whose newest copy has not been cleaned up
    complete: set<nat>,     // the volumes whose newest copy transferred everything
    returned: set<(nat, ClusterReservation)>,
    switched: set<nat>,
    restored: set<nat>)

  datatype Seen = Seen(stored: seq<ClusterVolume>, work: Work)

  const NOTHING: Seen := Seen([], Work(map[], {}, {}, {}, {}, {}))

  function NewestOf(w: Work, v: nat): int {
    if v in w.newest then w.newest[v] else 0
  }

  function WorkAfter(w: Work, e: Event): Work {
    match e
    case Stored(_) => w
    case Returned(v, checkpoint) => w.(returned := w.returned + {(v, checkpoint)})
    case Copied(v, attempt) =>
      w.(newest := w.newest[v := attempt], open := w.open + {v}, complete := w.complete - {v})
    case Cleaned(v, attempt) => if attempt == NewestOf(w, v) then w.(open := w.open - {v}) else w
    case Succeeded(v, _) => w.(complete := w.complete + {v})
    case Switched(v) => w.(switched := w.switched + {v})
    case Restored(v) => w.(restored := w.restored + {v})
  }

  function After(s: Seen, e: Event): Seen {
    Seen(if e.Stored? then e.record.volumes else s.stored, WorkAfter(s.work, e))
  }

  // -------------------------------------------------- acceptable next events

  /** The newest copy of the volume is the recorded attempt, and it transferred everything. */
  predicate CopyComplete(w: Work, i: nat, v: ClusterVolume) {
    i in w.complete && i in w.newest && w.newest[i] == v.sync.attempts
  }

  /** The temporary claim is deleted first, the source claim after it, and then the volume is reserved for the new claim. */
  predicate StepsInOrder(a: ClusterActivation) {
    (a.sourceDeleted ==> a.temporaryDeleted) && (a.destinationReserved ==> a.sourceDeleted)
  }

  /** A checkpoint says only what was done. */
  predicate WasDone(w: Work, i: nat, v: ClusterVolume) {
    && StepsInOrder(v.activation)
    && (v.reservation.reserved ==> (i, v.reservation) in w.returned)
    && (v.sync.finalDone ==> CopyComplete(w, i, v))
    && (v.activation.activated ==> i in w.switched)
    && (v.activation.rolledBack ==> i in w.restored)
  }

  predicate Allowed(s: Seen, e: Event) {
    match e
    case Stored(r) =>
      && (forall i: nat | i < |r.volumes| :: WasDone(s.work, i, r.volumes[i]))
      && (Effective(r.status) in TERMINAL_PHASES ==> s.work.open == {})
    case Returned(_, _) => true
    case Copied(v, attempt) =>
      && v !in s.work.open && attempt > NewestOf(s.work, v)
      && v < |s.stored| && s.stored[v].sync.attempts == attempt && s.stored[v].reservation.reserved
    case Cleaned(_, _) => true
    case Succeeded(v, attempt) => v !in s.work.open && v in s.work.newest && s.work.newest[v] == attempt
    case Switched(v) =>
      && v < |s.stored| && !s.stored[v].activation.activated && CopyComplete(s.work, v, s.stored[v])
      && (forall j | 0 <= j < v :: s.stored[j].activation.activated)
    case Restored(v) =>
      && v < |s.stored| && !s.stored[v].activation.rolledBack
      && (forall j | v < j < |s.stored| :: s.stored[j].activation.rolledBack)
  }

  function Replay(log: seq<Event>, k: nat): Seen
    requires k <= |log|
  {
    if k == 0 then NOTHING else After(Replay(log, k - 1), log[k - 1])
  }

  predicate AllowedAt(log: seq<Event>, k: nat)
    requires k < |log|
  {
    Allowed(Replay(log, k), log[k])
  }

  predicate Disciplined(log: seq<Event>) {
    forall k: nat | k < |log| :: AllowedAt(log, k)
  }

  lemma {:induction false} ReplayOfPrefix(log: seq<Event>, more: seq<Event>, k: nat)
    requires log <= more && k <= |log|
    ensures Replay(more, k) == Replay(log, k)
  {
    if k > 0 {
      ReplayOfPrefix(log, more, k - 1);
    }
  }

  lemma Append(log: seq<Event>, e: Event)
    requires Disciplined(log) && Allowed(Replay(log, |log|), e)
    ensures Disciplined(log + [e]) && Replay(log + [e], |log| + 1) == After(Replay(log, |log|), e)
  {
    hide Allowed;
    var more := log + [e];
    forall k: nat | k < |more| ensures AllowedAt(more, k) {
      ReplayOfPrefix(log, more, k);
      assert k < |log| ==> AllowedAt(log, k);
    }
    ReplayOfPrefix(log, more, |log|);
  }

  // ------------------------------------------- statements about the whole log

  lemma CopyIsAllowed(log: seq<Event>, k: nat)
    requires Disciplined(log) && k < |log| && log[k].Copied?
    ensures
      var s := Replay(log, k);
      && log[k].volume !in s.work.open && log[k].attempt > NewestOf(s.work, log[k].volume)
      && log[k].volume < |s.stored| && s.stored[log[k].volume].sync.attempts == log[k].attempt
  {
    assert AllowedAt(log, k);
  }

  lemma {:induction false} NewestGrows(log: seq<Event>, i: nat, k: nat, v: nat)
    requires Disciplined(log) && i <= k <= |log|
    ensures NewestOf(Replay(log, i).work, v) <= NewestOf(Replay(log, k).work, v)
  {
    hide Disciplined;
    if i < k {
      if log[k - 1].Copied? {
        CopyIsAllowed(log, k - 1);
      }
      NewestGrows(log, i, k - 1, v);
    }
  }

  lemma {:induction false} OpenUntilCleaned(log: seq<Event>, i: nat, k: nat)
    requires Disciplined(log) && i < k <= |log| && log[i].Copied?
    requires forall j | i < j < k :: log[j] != Cleaned(log[i].volume, log[i].attempt)
    ensures log[i].volume in Replay(log, k).work.open
    ensures NewestOf(Replay(log, k).work, log[i].volume) == log[i].attempt
  {
    hide Disciplined;
    if i < k - 1 {
      OpenUntilCleaned(log, i, k - 1);
      if log[k - 1].Copied? {
        CopyIsAllowed(log, k - 1);
      }
    }
  }

  lemma {:induction false} StoredBefore(log: seq<Event>, k: nat)
    requires k <= |log|
    ensures Replay(log, k).stored == []
            || exists j | 0 <= j < k :: log[j].Stored? && log[j].record.volumes == Replay(log, k).stored
  {
    if k > 0 && !log[k - 1].Stored? {
      StoredBefore(log, k - 1);
    }
  }

  /**
   Two copies of one volume never overlap: the later one has a larger attempt number,
   the earlier one was cleaned up in between, and each number was durable before its
   copy started.
   */
  lemma CopiesDoNotOverlap(log: seq<Event>, i: nat, k: nat)
    requires Disciplined(log)
    requires i < k < |log| && log[i].Copied? && log[k].Copied? && log[i].volume == log[k].volume
    ensures log[i].attempt < log[k].attempt
    ensures exists j | i < j < k :: log[j] == Cleaned(log[i].volume, log[i].attempt)
    ensures
      var stored := Replay(log, k).stored;
      && log[k].volume < |stored| && stored[log[k].volume].sync.attempts == log[k].attempt
      && exists j | 0 <= j < k :: log[j].Stored? && log[j].record.volumes == stored
  {
    hide Disciplined;
    CopyIsAllowed(log, k);
    NewestGrows(log, i + 1, k, log[i].volume);
    if forall j | i < j < k :: log[j] != Cleaned(log[i].volume, log[i].attempt) {
      OpenUntilCleaned(log, i, k);
      assert false;
    }
    StoredBefore(log, k);
  }

  lemma EndIsClean(log: seq<Event>, k: nat)
    requires Disciplined(log) && k < |log| && log[k].Stored? && Effective(log[k].record.status) in TERMINAL_PHASES
    ensures Replay(log, k).work.open == {}
  {
    assert AllowedAt(log, k);
  }

  /** No terminal phase becomes durable next to a copy tool that may still be running. */
  lemma ToolsStopFirst(log: seq<Event>, i: nat, k: nat)
    requires Disciplined(log) && i < k < |log| && log[i].Copied?
    requires log[k].Stored? && Effective(log[k].record.status) in TERMINAL_PHASES
    ensures exists j | i < j < k :: log[j] == Cleaned(log[i].volume, log[i].attempt)
  {
    hide Disciplined;
    if forall j | i < j < k :: log[j] != Cleaned(log[i].volume, log[i].attempt) {
      OpenUntilCleaned(log, i, k);
      EndIsClean(log, k);
      assert false;
    }
  }

  predicate CopyOf(e: Event, v: nat) {
    e.Copied? && e.volume == v
  }

  /** No copy of the volume was started between the two positions. */
  predicate NoCopy(log: seq<Event>, c: nat, k: nat, v: nat)
    requires k <= |log|
  {
    forall i | c < i < k :: !CopyOf(log[i], v)
  }

  lemma {:induction false} NewestWasCopied(log: seq<Event>, k: nat, v: nat) returns (c: nat)
    requires k <= |log| && v in Replay(log, k).work.newest
    ensures c < k && log[c] == Copied(v, Replay(log, k).work.newest[v]) && NoCopy(log, c, k, v)
  {
    if CopyOf(log[k - 1], v) {
      c := k - 1;
    } else {
      c := NewestWasCopied(log, k - 1, v);
    }
  }

  lemma {:induction false} CompleteHasSucceeded(log: seq<Event>, k: nat, v: nat) returns (j: nat)
    requires k <= |log| && v in Replay(log, k).work.complete
    ensures j < k && log[j].Succeeded? && log[j].volume == v && NoCopy(log, j, k, v)
  {
    if log[k - 1].Succeeded? && log[k - 1].volume == v {
      j := k - 1;
    } else {
      j := CompleteHasSucceeded(log, k - 1, v);
    }
  }

  lemma SuccessIsAllowed(log: seq<Event>, j: nat)
    requires Disciplined(log) && j < |log| && log[j].Succeeded?
    ensures
      var w := Replay(log, j).work;
      log[j].volume !in w.open && log[j].volume in w.newest && w.newest[log[j].volume] == log[j].attempt
  {
    assert AllowedAt(log, j);
  }

  lemma {:induction false} NewestStays(log: seq<Event>, j: nat, k: nat, v: nat)
    requires j <= k <= |log| && v in Replay(log, j).work.newest && forall i | j <= i < k :: !CopyOf(log[i], v)
    ensures v in Replay(log, k).work.newest && Replay(log, k).work.newest[v] == Replay(log, j).work.newest[v]
  {
    if j < k {
      NewestStays(log, j, k - 1, v);
    }
  }

  /** The copy that stands behind a complete volume: started, cleaned up, reported, and not repeated since. */
  lemma CompleteWasCopied(log: seq<Event>, k: nat, v: nat) returns (c: nat, t: nat, j: nat)
    requires Disciplined(log) && k <= |log| && v in Replay(log, k).work.complete && v in Replay(log, k).work.newest
    ensures
      var a := Replay(log, k).work.newest[v];
      && c < t < j < k && log[c] == Copied(v, a) && log[t] == Cleaned(v, a) && log[j] == Succeeded(v, a)
      && NoCopy(log, c, k, v)
  {
    hide Disciplined;
    j := CompleteHasSucceeded(log, k, v);
    SuccessIsAllowed(log, j);
    c := NewestWasCopied(log, j, v);
    NewestStays(log, j, k, v);
    var a := log[c].attempt;
    if forall i | c < i < j :: log[i] != Cleaned(v, a) {
      OpenUntilCleaned(log, c, j);
      assert false;
    }
    t :| c < t < j && log[t] == Cleaned(v, a);
  }

  lemma StoreIsAllowed(log: seq<Event>, k: nat, i: nat)
    requires Disciplined(log) && k < |log| && log[k].Stored? && i < |log[k].record.volumes|
    ensures WasDone(Replay(log, k).work, i, log[k].record.volumes[i])
  {
    assert AllowedAt(log, k);
  }

  lemma SwitchIsAllowed(log: seq<Event>, k: nat)
    requires Disciplined(log) && k < |log| && log[k].Switched?
    ensures
      var s := Replay(log, k);
      log[k].volume < |s.stored| && CopyComplete(s.work, log[k].volume, s.stored[log[k].volume])
  {
    assert AllowedAt(log, k);
  }

  /**
   A volume is marked as synced, and switched, only to data that is complete: its newest
   copy, the recorded attempt, was cleaned up and then reported complete.
   */
  lemma MarkFollowsCopy(log: seq<Event>, k: nat, i: nat) returns (c: nat, t: nat, j: nat)
    requires Disciplined(log) && k < |log|
    requires || log[k] == Switched(i)
             || (log[k].Stored? && i < |log[k].record.volumes| && log[k].record.volumes[i].sync.finalDone)
    ensures c < t < j < k && CopyOf(log[c], i) && NoCopy(log, c, k, i)
    ensures log[t] == Cleaned(i, log[c].attempt) && log[j] == Succeeded(i, log[c].attempt)
    ensures log[k].Stored? ==> log[k].record.volumes[i].sync.attempts == log[c].attempt
    ensures log[k].Switched? ==>
              i < |Replay(log, k).stored| && Replay(log, k).stored[i].sync.attempts == log[c].attempt
  {
    hide Disciplined;
    if log[k].Switched? {
      SwitchIsAllowed(log, k);
    } else {
      StoreIsAllowed(log, k, i);
    }
    c, t, j := CompleteWasCopied(log, k, i);
  }

  lemma {:induction false} CallsWereMade(log: seq<Event>, k: nat)
    requires k <= |log|
    ensures forall i <- Replay(log, k).work.switched :: Switched(i) in log[..k]
    ensures forall i <- Replay(log, k).work.restored :: Restored(i) in log[..k]
    ensures forall x <- Replay(log, k).work.returned :: Returned(x.0, x.1) in log[..k]
  {
    if k > 0 {
      CallsWereMade(log, k - 1);
      assert log[..k] == log[..k - 1] + [log[k - 1]];
    }
  }

  /**
   A durable checkpoint says only what was done, by the reserver, the switcher and the
   restorer, and the steps of a switch are recorded in their order.
   */
  lemma RecordedWorkWasDone(log: seq<Event>, k: nat, i: nat)
    requires Disciplined(log) && k < |log| && log[k].Stored? && i < |log[k].record.volumes|
    ensures
      var v := log[k].record.volumes[i];
      && (v.reservation.reserved ==> Returned(i, v.reservation) in log[..k])
      && (v.activation.activated ==> Switched(i) in log[..k])
      && (v.activation.rolledBack ==> Restored(i) in log[..k])
      && (v.activation.sourceDeleted ==> v.activation.temporaryDeleted)
      && (v.activation.destinationReserved ==> v.activation.sourceDeleted)
  {
    hide Disciplined;
    StoreIsAllowed(log, k, i);
    CallsWereMade(log, k);
  }
}
