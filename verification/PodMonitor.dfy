/**
 What an observer of a pod migration sees: every durable write and every call that
 acts on the cluster, over all invocations. `Safe` says which logs are acceptable;
 the lemmas below turn it into statements about positions in the log.
 */
module PodMonitor {
  import opened Lifecycle
  import opened History
  import opened Checkpoints
  import opened PodRecord

  datatype Mode = Warm | Final

  datatype Event =
    | Loaded(record: Record, deleting: bool)  // an invocation starts from the durable record
    | Saved(record: Record)                   // the record became durable
    | PauseCalled                             // the workload controller was asked to pause
    | ResumeCalled(resumed: bool)
    | PauseVerified
    | SourceSettling                          // a deletion found the source pair gone or going
    | SourcePresent                           // a deletion found the source pair there to stay
    | ReserverReturned(volume: nat, checkpoint: Reservation)
    | MountsShared                            // source volumes may be shared from here on
    | MountsRestored                          // every shared source volume was restored
    | ActivateCalled(volume: nat)
    | RollbackCalled(volume: nat)
    | CopyCalled(volume: nat, mode: Mode, attempt: int)
    | ToolsCleaned(volume: nat, mode: Mode, attempt: int)
    | CopySucceeded(volume: nat, mode: Mode)  // the newest copy, of that mode, transferred everything
    | FailureCancelled                        // a cancelled driver records its failure: no reason, no phase
    | TakenBack(record: Record)               // this save was reported as failed after it became durable

  /** What was done about single volumes, besides copying them finally. */
  datatype Work = Work(
    shared: bool,                      // source volumes may still be shared
    returned: set<(nat, Reservation)>, // every checkpoint the reserver returned
    switched: set<nat>,                // volumes the switcher was called for
    restored: set<nat>,                // volumes the restorer was called for
    warming: set<nat>,                 // volumes whose newest copy is a warm one not yet reported complete
    warmed: map<nat, nat>)             // how often a warm copy of the volume was reported complete

  /** What the log so far amounts to. */
  datatype Monitor = Monitor(
    durable: Record,
    paused: bool,          // a pause was attempted and no resume succeeded since
    verified: bool,        // the pause was verified in this invocation, after any pause or resume
    settling: bool,        // this invocation found the source pair gone or going
    present: bool,         // this invocation found the source pair there to stay
    forgotten: bool,       // a record of this invocation had lost the origin of its abort
    deleting: bool,
    exhausted: bool,       // a capacity failure became durable and no excused save dropped it
    excused: bool,         // since then, in this invocation, a driver was cancelled or that save taken back
    capped: bool,          // some invocation started from a capacity failure
    seen: set<Phase>,
    copied: map<nat, int>, // the newest attempt copied, per volume
    dirty: map<nat, Mode>, // the volumes whose newest copy has not been cleaned up
    final: set<nat>,       // volumes whose newest copy is a final one since the last pause attempt or resume
    synced: set<nat>,      // those of them that were copied in full
    work: Work)

  predicate Forgets(r: Record) {
    PhaseOf(r) == Aborting && !AbortOriginKept(r.status)
  }

  function Start(r: Record): Monitor {
    Monitor(r, false, false, false, false, Forgets(r), false, r.status.reason == CapacityExhausted, false, false,
            {PhaseOf(r)}, map[], map[], {}, {}, Work(false, {}, {}, {}, {}, map[]))
  }

  function CopiedOf(m: Monitor, v: nat): int {
    if v in m.copied then m.copied[v] else 0
  }

  function WarmedOf(m: Monitor, v: nat): nat {
    if v in m.work.warmed then m.work.warmed[v] else 0
  }

  function WorkAfter(w: Work, e: Event): Work {
    match e
    case MountsShared => w.(shared := true)
    case MountsRestored => w.(shared := false)
    case ReserverReturned(v, checkpoint) => w.(returned := w.returned + {(v, checkpoint)})
    case ActivateCalled(v) => w.(switched := w.switched + {v})
    case RollbackCalled(v) => w.(restored := w.restored + {v})
    case CopyCalled(v, mode, _) =>
      w.(warming := if mode == Warm then w.warming + {v} else w.warming - {v})
    case CopySucceeded(v, mode) =>
      var w' := w.(warming := w.warming - {v});
      if mode == Warm then w'.(warmed := w.warmed[v := (if v in w.warmed then w.warmed[v] else 0) + 1]) else w'
    case _ => w
  }

  function CopyPhase(mode: Mode): Phase {
    if mode == Warm then WarmCopying else FinalSyncing
  }

  predicate SavedExhausted(e: Event) {
    e.Saved? && e.record.status.reason == CapacityExhausted
  }

  /** Why a capacity failure may be dropped: the driver was cancelled, or the save that recorded it taken back. */
  predicate Excuse(e: Event) {
    e == FailureCancelled || (e.TakenBack? && e.record.status.reason == CapacityExhausted)
  }

  /** A final copy made before this no longer counts. */
  predicate Voids(e: Event) {
    e == PauseCalled || e == ResumeCalled(true)
  }

  predicate CopyOf(e: Event, v: nat) {
    e.CopyCalled? && e.volume == v
  }

  /** The cleanup of the newest copy of its volume. */
  predicate Cleans(m: Monitor, e: Event) {
    && e.ToolsCleaned? && e.attempt == CopiedOf(m, e.volume)
    && e.volume in m.dirty && m.dirty[e.volume] == e.mode
  }

  function After(m: Monitor, e: Event): Monitor {
    Monitor(
      durable := if e.Saved? then e.record else m.durable,
      paused := e == PauseCalled || (m.paused && e != ResumeCalled(true)),
      verified := e == PauseVerified || (m.verified && !e.Loaded? && e != PauseCalled && !e.ResumeCalled?),
      settling := e == SourceSettling || (m.settling && !e.Loaded?),
      present := e == SourcePresent || (m.present && !e.Loaded?),
      forgotten := ((e.Saved? || e.Loaded?) && Forgets(e.record)) || (m.forgotten && !e.Loaded?),
      deleting := m.deleting || (e.Loaded? && e.deleting),
      exhausted := SavedExhausted(e) || (m.exhausted && !(e.Saved? && m.excused)),
      excused := Excuse(e) || (m.excused && !e.Loaded? && !SavedExhausted(e)),
      capped := m.capped || (e.Loaded? && m.exhausted),
      seen := if e.Saved? then m.seen + {PhaseOf(e.record)} else m.seen,
      copied := if e.CopyCalled? then m.copied[e.volume := e.attempt] else m.copied,
      dirty :=
        if e.CopyCalled? then m.dirty[e.volume := e.mode]
        else if Cleans(m, e) then m.dirty - {e.volume}
        else m.dirty,
      final :=
        if Voids(e) then {}
        else if e.CopyCalled? then (if e.mode == Final then m.final + {e.volume} else m.final - {e.volume})
        else m.final,
      synced :=
        if Voids(e) then {}
        else if e.CopyCalled? then m.synced - {e.volume}
        else if e.CopySucceeded? && e.mode == Final then m.synced + {e.volume}
        else m.synced,
      work := WorkAfter(m.work, e))
  }

  // -------------------------------------------------- acceptable next events

  /**
   A terminal record leaves no copy tool running, and never leaves the workload
   paused but for the two named exceptions of an abort, decided when it first ended.
   */
  predicate Released(m: Monitor, r: Record) {
    PhaseOf(r) in TERMINAL_PHASES ==>
      && m.dirty == map[]
      && (m.paused ==> PhaseOf(r) == Aborted && (m.settling || m.forgotten || Aborted in m.seen))
  }

  predicate ActivatedPrefix(r: Record) {
    forall i, j | 0 <= i < j < |r.volumes| ::
      r.volumes[j].activation.activated ==> r.volumes[i].activation.activated
  }

  predicate RolledBackSuffix(r: Record) {
    forall i, j | 0 <= i < j < |r.volumes| ::
      r.volumes[i].activation.rolledBack ==> r.volumes[j].activation.rolledBack
  }

  /** The record says Paused of a workload that was paused, and first says it when this was verified. */
  predicate PausedForSure(m: Monitor, r: Record) {
    PhaseOf(r) == Paused ==> m.paused && (Paused in m.seen || m.verified)
  }

  /** Cutover follows a pause and a final sync; cutover, rollback and abort are never left backwards. */
  predicate Ordered(m: Monitor, r: Record) {
    && (PhaseOf(r) in CUTOVER_PHASES + ROLLBACK_PHASES ==> Paused in m.seen && FinalSynced in m.seen)
    && (m.seen !! CUTOVER_PHASES + ROLLBACK_PHASES || PhaseOf(r) in CUTOVER_PHASES + ROLLBACK_PHASES)
    && (m.seen !! ROLLBACK_PHASES || PhaseOf(r) in ROLLBACK_PHASES)
    && (m.seen !! ABORT_PHASES || PhaseOf(r) in ABORT_PHASES)
  }

  /** A capacity failure stands: it was loaded, or saved and not excused since. */
  predicate Barred(m: Monitor) {
    m.capped || (m.exhausted && !m.excused)
  }

  /** Still failed for want of capacity, or aborted; deletion, which aborts, may drop the reason first. */
  predicate HeldBack(m: Monitor, r: Record) {
    || PhaseOf(r) in ABORT_PHASES
    || (&& PhaseOf(r) in {WarmCopying, FinalSyncing}
        && (m.deleting || (r.status.phase == Failed && r.status.reason == CapacityExhausted)))
  }

  predicate CapacityHeld(m: Monitor, r: Record) {
    Barred(m) ==> HeldBack(m, r)
  }

  /**
   A copy runs in its phase, outside deletions and with no capacity failure standing,
   under a fresh, durable attempt number, after its predecessor was cleaned up. A final
   copy runs next to a paused workload whose pause this invocation verified.
   */
  predicate CopyAllowed(m: Monitor, v: nat, mode: Mode, attempt: int) {
    && !m.deleting && !m.capped && !m.exhausted && m.durable.status.reason != CapacityExhausted
    && PhaseOf(m.durable) == CopyPhase(mode)
    && (mode == Final ==> m.paused && m.verified && !m.work.shared)
    && v !in m.dirty && attempt > CopiedOf(m, v)
    && v < |m.durable.volumes|
    && m.durable.volumes[v].sync.attempts == attempt
    && m.durable.volumes[v].reservation.reserved
  }

  /** The phases in which a source volume may be shared: from the warm passes to the pause, and while aborting. */
  predicate MayShare(p: Phase) {
    p in {Reserved, WarmCopying, WarmCopied, Pausing, Aborting}
  }

  predicate AllRolledBack(r: Record) {
    forall i | 0 <= i < |r.volumes| :: r.volumes[i].activation.rolledBack
  }

  /** The temporary claim is deleted first, the source claim after it, and then the volume is reserved for the new claim. */
  predicate StepsInOrder(a: Activation) {
    (a.sourceDeleted ==> a.temporaryDeleted) && (a.destinationReserved ==> a.sourceDeleted)
  }

  /** What the checkpoint of a volume records was done: its reserver, switcher or restorer was called. */
  predicate WasDone(m: Monitor, i: nat, v: Volume) {
    && (v.reservation.reserved ==> (i, v.reservation) in m.work.returned)
    && (v.activation.activated ==> i in m.work.switched)
    && (v.activation.rolledBack ==> i in m.work.restored)
    && StepsInOrder(v.activation)
  }

  /** Every recorded pass copied every volume, and every recorded step was taken. */
  predicate Performed(m: Monitor, r: Record) {
    forall i: nat | i < |r.volumes| :: WasDone(m, i, r.volumes[i]) && WarmedOf(m, i) >= r.passes
  }

  /** A rollback pauses the workload that was resumed before it, unless nothing is left to restore. */
  predicate RollbackMayPause(r: Record) {
    && PhaseOf(r) == RollingBack && !AllRolledBack(r)
    && (NeedsPause(r.status) || !RollbackOriginKept(r.status))
  }

  /** An abort resumes only a workload that its record found held, or no longer knows about. */
  predicate AbortMayResume(r: Record) {
    NeedsResume(r.status) || Forgets(r)
  }

  predicate Allowed(plan: Plan, m: Monitor, e: Event) {
    match e
    case Loaded(r, deleting) => r == m.durable && (m.deleting ==> deleting)
    case Saved(r) =>
      && RecordValid(plan, r)
      && Released(m, r)
      && ActivatedPrefix(r) && RolledBackSuffix(r)
      && Ordered(m, r) && PausedForSure(m, r)
      && CapacityHeld(m, r)
      && Performed(m, r)
      && (m.work.shared ==> MayShare(PhaseOf(r)))
    case PauseCalled => !m.work.shared && (PhaseOf(m.durable) == Pausing || RollbackMayPause(m.durable))
    case ResumeCalled(_) =>
      && !m.work.shared && m.dirty == map[]
      && PhaseOf(m.durable) in {Resuming, RollingBack, Aborting}
      && (PhaseOf(m.durable) == RollingBack ==> AllRolledBack(m.durable))
      && (PhaseOf(m.durable) == Aborting ==> AbortMayResume(m.durable) && (m.deleting ==> m.present))
    case PauseVerified => true
    case SourceSettling => m.deleting
    case SourcePresent => m.deleting
    case ReserverReturned(_, _) => PhaseOf(m.durable) == Reserving
    case MountsShared => MayShare(PhaseOf(m.durable)) && PhaseOf(m.durable) != Aborting
    case MountsRestored => true
    case ActivateCalled(v) =>
      && m.paused && m.verified && !m.work.shared && v in m.synced
      && PhaseOf(m.durable) == Activating
      && v < |m.durable.volumes| && !m.durable.volumes[v].activation.activated
      && (forall j | 0 <= j < v :: m.durable.volumes[j].activation.activated)
    case RollbackCalled(v) =>
      && m.verified && !m.work.shared && (m.paused || !RollbackOriginKept(m.durable.status))
      && PhaseOf(m.durable) == RollingBack
      && v < |m.durable.volumes| && !m.durable.volumes[v].activation.rolledBack
      && (forall j | v < j < |m.durable.volumes| :: m.durable.volumes[j].activation.rolledBack)
    case CopyCalled(v, mode, attempt) => CopyAllowed(m, v, mode, attempt)
    case ToolsCleaned(_, _, _) => true
    case CopySucceeded(v, mode) => v !in m.dirty && (if mode == Final then v in m.final else v in m.work.warming)
    case FailureCancelled => true
    case TakenBack(r) => r == m.durable
  }

  /** What the first `k` events of a log amount to. */
  function Replay(r: Record, log: seq<Event>, k: nat): Monitor
    requires k <= |log|
  {
    if k == 0 then Start(r) else After(Replay(r, log, k - 1), log[k - 1])
  }

  predicate AllowedAt(plan: Plan, r: Record, log: seq<Event>, k: nat)
    requires k < |log|
  {
    Allowed(plan, Replay(r, log, k), log[k])
  }

  /** Every event was acceptable when it happened. */
  predicate Safe(plan: Plan, r: Record, log: seq<Event>) {
    forall k: nat | k < |log| :: AllowedAt(plan, r, log, k)
  }

  lemma {:induction false} ReplayOfPrefix(r: Record, log: seq<Event>, more: seq<Event>, k: nat)
    requires log <= more && k <= |log|
    ensures Replay(r, more, k) == Replay(r, log, k)
  {
    if k > 0 {
      ReplayOfPrefix(r, log, more, k - 1);
    }
  }

  /** Appending an acceptable event keeps a log safe. */
  lemma SafeAppend(plan: Plan, r: Record, log: seq<Event>, e: Event)
    requires Safe(plan, r, log) && Allowed(plan, Replay(r, log, |log|), e)
    ensures Safe(plan, r, log + [e])
    ensures Replay(r, log + [e], |log| + 1) == After(Replay(r, log, |log|), e)
  {
    var more := log + [e];
    forall k: nat | k < |more| ensures AllowedAt(plan, r, more, k) {
      ReplayOfPrefix(r, log, more, k);
      assert k < |log| ==> AllowedAt(plan, r, log, k);
    }
    ReplayOfPrefix(r, log, more, |log|);
  }

  // ------------------------------------------- statements about the whole log

  lemma CallFields(m: Monitor, e: Event)
    ensures After(m, e).paused <==> e == PauseCalled || (m.paused && e != ResumeCalled(true))
    ensures After(m, e).verified <==>
              e == PauseVerified || (m.verified && !e.Loaded? && e != PauseCalled && !e.ResumeCalled?)
    ensures After(m, e).settling <==> e == SourceSettling || (m.settling && !e.Loaded?)
    ensures After(m, e).present <==> e == SourcePresent || (m.present && !e.Loaded?)
  {
  }

  lemma RecordFields(m: Monitor, e: Event)
    ensures After(m, e).durable == if e.Saved? then e.record else m.durable
    ensures After(m, e).forgotten <==>
              ((e.Saved? || e.Loaded?) && Forgets(e.record)) || (m.forgotten && !e.Loaded?)
    ensures After(m, e).deleting <==> m.deleting || (e.Loaded? && e.deleting)
    ensures After(m, e).seen == if e.Saved? then m.seen + {PhaseOf(e.record)} else m.seen
  {
    hide Forgets, PhaseOf;
  }

  lemma CapacityFields(m: Monitor, e: Event)
    ensures After(m, e).exhausted <==> SavedExhausted(e) || (m.exhausted && !(e.Saved? && m.excused))
    ensures After(m, e).excused <==> Excuse(e) || (m.excused && !e.Loaded? && !SavedExhausted(e))
    ensures After(m, e).capped <==> m.capped || (e.Loaded? && m.exhausted)
  {
    hide SavedExhausted, Excuse;
  }

  lemma SyncedFields(m: Monitor, e: Event, v: nat)
    ensures v in After(m, e).synced <==>
              e == CopySucceeded(v, Final) || (v in m.synced && !Voids(e) && !CopyOf(e, v))
    ensures v in After(m, e).final <==>
              (CopyOf(e, v) && e.mode == Final) || (v in m.final && !Voids(e) && !CopyOf(e, v))
  {
  }

  lemma {:induction false} PausedSince(r: Record, log: seq<Event>, p: nat, k: nat)
    requires p < k <= |log| && log[p] == PauseCalled
    requires forall j | p < j < k :: log[j] != ResumeCalled(true)
    ensures Replay(r, log, k).paused
  {
    hide After;
    CallFields(Replay(r, log, k - 1), log[k - 1]);
    if p < k - 1 {
      PausedSince(r, log, p, k - 1);
    }
  }

  predicate NoLoad(log: seq<Event>, i: int, k: int)
    requires -1 <= i && k <= |log|
  {
    forall j | i < j < k :: !log[j].Loaded?
  }

  lemma {:induction false} SettlingWasSeen(plan: Plan, r: Record, log: seq<Event>, k: nat) returns (j: nat)
    requires Safe(plan, r, log) && k <= |log| && Replay(r, log, k).settling
    ensures j < k && log[j] == SourceSettling && NoLoad(log, j, k)
    ensures Replay(r, log, j).deleting
  {
    hide After, Safe;
    CallFields(Replay(r, log, k - 1), log[k - 1]);
    if log[k - 1] == SourceSettling {
      j := k - 1;
      SettlingUnderDeletion(plan, r, log, j);
    } else {
      j := SettlingWasSeen(plan, r, log, k - 1);
    }
  }

  lemma SettlingUnderDeletion(plan: Plan, r: Record, log: seq<Event>, j: nat)
    requires Safe(plan, r, log) && j < |log| && log[j] == SourceSettling
    ensures Replay(r, log, j).deleting
  {
    assert AllowedAt(plan, r, log, j);
  }

  lemma DeletionStays(plan: Plan, r: Record, log: seq<Event>, j: nat)
    requires Safe(plan, r, log) && j < |log| && log[j].Loaded? && Replay(r, log, j).deleting
    ensures log[j].deleting
  {
    assert AllowedAt(plan, r, log, j);
  }

  /** A deletion in progress was found by the load that began the invocation. */
  lemma {:induction false} DeletionWasLoaded(plan: Plan, r: Record, log: seq<Event>, k: nat) returns (l: nat)
    requires Safe(plan, r, log) && k <= |log| && Replay(r, log, k).deleting
    ensures l < k && log[l].Loaded? && log[l].deleting && NoLoad(log, l, k)
  {
    hide After, Safe;
    RecordFields(Replay(r, log, k - 1), log[k - 1]);
    if log[k - 1].Loaded? {
      l := k - 1;
      if !log[l].deleting {
        DeletionStays(plan, r, log, l);
      }
    } else {
      l := DeletionWasLoaded(plan, r, log, k - 1);
    }
  }

  lemma {:induction false} ForgettingWasRecorded(r: Record, log: seq<Event>, k: nat) returns (j: nat)
    requires k <= |log| && Replay(r, log, k).forgotten && !Forgets(r)
    ensures j < k && (log[j].Saved? || log[j].Loaded?) && Forgets(log[j].record) && NoLoad(log, j, k)
  {
    hide After;
    RecordFields(Replay(r, log, k - 1), log[k - 1]);
    if (log[k - 1].Saved? || log[k - 1].Loaded?) && Forgets(log[k - 1].record) {
      j := k - 1;
    } else {
      j := ForgettingWasRecorded(r, log, k - 1);
    }
  }

  lemma SavedIsReleased(plan: Plan, r: Record, log: seq<Event>, k: nat)
    requires Safe(plan, r, log) && k < |log| && log[k].Saved?
    ensures Released(Replay(r, log, k), log[k].record)
  {
    assert AllowedAt(plan, r, log, k);
  }

  /**
   The volume checkpoints of every record that becomes durable pass the validator: one
   per planned volume, reserved, synced, activated and rolled back as its phase demands.
   Activated volumes are a prefix of the plan and rolled back ones a suffix.
   */
  lemma SavedRecordsAreValid(plan: Plan, r: Record, log: seq<Event>, k: nat)
    requires Safe(plan, r, log) && k < |log| && log[k].Saved?
    ensures RecordValid(plan, log[k].record)
    ensures ActivatedPrefix(log[k].record) && RolledBackSuffix(log[k].record)
  {
    assert AllowedAt(plan, r, log, k);
  }

  predicate AbortedAt(log: seq<Event>, k: nat)
    requires k < |log|
  {
    log[k].Saved? && PhaseOf(log[k].record) == Aborted
  }

  predicate FirstAbortedAt(log: seq<Event>, a: nat)
    requires a < |log|
  {
    AbortedAt(log, a) && forall i | 0 <= i < a && log[i].Saved? :: PhaseOf(log[i].record) != Aborted
  }

  /** The invocation that saves at `a` was a deletion and found the source pair gone or going. */
  predicate SourceWasGoing(log: seq<Event>, a: nat)
    requires a <= |log|
  {
    exists l, j | 0 <= l < j < a ::
      log[l].Loaded? && log[l].deleting && log[j] == SourceSettling && NoLoad(log, l, a)
  }

  /** The invocation that saves at `a` worked on a record that had lost the origin of its abort. */
  predicate OriginWasLost(log: seq<Event>, a: nat)
    requires a <= |log|
  {
    exists j | 0 <= j < a ::
      (log[j].Loaded? || log[j].Saved?) && Forgets(log[j].record) && NoLoad(log, j, a)
  }

  lemma {:induction false} FirstAborted(log: seq<Event>, k: nat) returns (a: nat)
    requires k < |log| && AbortedAt(log, k)
    ensures a <= k && FirstAbortedAt(log, a)
  {
    if i: nat :| i < k && log[i].Saved? && PhaseOf(log[i].record) == Aborted {
      a := FirstAborted(log, i);
    } else {
      a := k;
    }
  }

  lemma PauseIsAllowed(plan: Plan, r: Record, log: seq<Event>, p: nat)
    requires Safe(plan, r, log) && p < |log| && log[p] == PauseCalled
    ensures PhaseOf(Replay(r, log, p).durable) in {Pausing, RollingBack} && !Replay(r, log, p).work.shared
  {
    assert AllowedAt(plan, r, log, p);
  }

  /** No workload is paused after an abort has ended. */
  lemma NoPauseAfterAbort(plan: Plan, r: Record, log: seq<Event>, a: nat, p: nat)
    requires Safe(plan, r, log) && a < |log| && p < |log| && AbortedAt(log, a) && log[p] == PauseCalled
    ensures p < a
  {
    hide After, Safe;
    if a < p {
      PauseIsAllowed(plan, r, log, p);
      AbortStays(plan, r, log, a, p);
    }
  }

  lemma {:induction false} AbortStays(plan: Plan, r: Record, log: seq<Event>, a: nat, k: nat)
    requires Safe(plan, r, log) && a < k <= |log| && AbortedAt(log, a)
    ensures PhaseOf(Replay(r, log, k).durable) in ABORT_PHASES
  {
    hide After, Safe;
    RecordFields(Replay(r, log, k - 1), log[k - 1]);
    if a < k - 1 {
      AbortStays(plan, r, log, a, k - 1);
      if log[k - 1].Saved? {
        NoReturn(plan, r, log, a, k - 1);
      }
    }
  }

  lemma {:induction false} AbortedFromTheStart(plan: Plan, r: Record, log: seq<Event>, k: nat)
    requires Safe(plan, r, log) && k <= |log| && PhaseOf(r) == Aborted
    ensures PhaseOf(Replay(r, log, k).durable) in ABORT_PHASES && Aborted in Replay(r, log, k).seen
  {
    hide After, Safe;
    if k > 0 {
      RecordFields(Replay(r, log, k - 1), log[k - 1]);
      AbortedFromTheStart(plan, r, log, k - 1);
      if log[k - 1].Saved? {
        SavedInOrder(plan, r, log, k - 1);
      }
    }
  }

  /** A run in which a pause was attempted did not start from an ended abort. */
  lemma NotAbortedBefore(plan: Plan, r: Record, log: seq<Event>, p: nat)
    requires Safe(plan, r, log) && p < |log| && log[p] == PauseCalled
    ensures PhaseOf(r) != Aborted
  {
    hide After, Safe;
    if PhaseOf(r) == Aborted {
      PauseIsAllowed(plan, r, log, p);
      AbortedFromTheStart(plan, r, log, p);
    }
  }

  /** The decision that let an abort end next to a paused workload, in the invocation that ended it. */
  lemma AbortWasExcused(plan: Plan, r: Record, log: seq<Event>, a: nat)
    requires Safe(plan, r, log) && !Forgets(r) && PhaseOf(r) != Aborted
    requires a < |log| && FirstAbortedAt(log, a)
    requires Replay(r, log, a).paused
    ensures SourceWasGoing(log, a) || OriginWasLost(log, a)
  {
    hide After, Safe, Forgets, PhaseOf;
    SavedIsReleased(plan, r, log, a);
    if Aborted in Replay(r, log, a).seen {
      SeenWasSaved(r, log, a, Aborted);
      assert false;
    }
    if Replay(r, log, a).settling {
      var j := SettlingWasSeen(plan, r, log, a);
      var l := DeletionWasLoaded(plan, r, log, j);
      assert NoLoad(log, l, a);
    } else {
      var j := ForgettingWasRecorded(r, log, a);
    }
  }

  /**
   Whenever a terminal phase becomes durable, every earlier pause attempt was
   followed by a successful resume. The exceptions are both aborts, decided in the
   invocation that first saved Aborted: a requested deletion that found the source pair
   gone or going, and a record whose capped history had lost the phase the abort was
   requested from.
   */
  lemma TerminalMeansResumed(plan: Plan, r: Record, log: seq<Event>, p: nat, k: nat)
    requires Safe(plan, r, log) && !Forgets(r)
    requires p < k < |log| && log[p] == PauseCalled
    requires log[k].Saved? && PhaseOf(log[k].record) in TERMINAL_PHASES
    ensures
      || (exists j | p < j < k :: log[j] == ResumeCalled(true))
      || (&& AbortedAt(log, k)
          && exists a: nat | p < a <= k ::
               FirstAbortedAt(log, a) && (SourceWasGoing(log, a) || OriginWasLost(log, a)))
  {
    hide After, Safe, Forgets, PhaseOf, SourceWasGoing, OriginWasLost;
    if forall j | p < j < k :: log[j] != ResumeCalled(true) {
      PausedSince(r, log, p, k);
      SavedIsReleased(plan, r, log, k);
      var a := FirstAborted(log, k);
      NoPauseAfterAbort(plan, r, log, a, p);
      NotAbortedBefore(plan, r, log, p);
      PausedSince(r, log, p, a);
      AbortWasExcused(plan, r, log, a);
    }
  }

  lemma {:induction false} VerificationWasMade(r: Record, log: seq<Event>, k: nat) returns (j: nat)
    requires k <= |log| && Replay(r, log, k).verified
    ensures j < k && log[j] == PauseVerified
    ensures forall i | j < i < k :: !log[i].Loaded? && log[i] != PauseCalled && !log[i].ResumeCalled?
  {
    hide After;
    CallFields(Replay(r, log, k - 1), log[k - 1]);
    if log[k - 1] == PauseVerified {
      j := k - 1;
    } else {
      j := VerificationWasMade(r, log, k - 1);
    }
  }

  /**
   No claim is switched or restored and no final copy runs unless the pause was verified
   in that same invocation, after any pause or resume.
   */
  lemma SwitchIsVerified(plan: Plan, r: Record, log: seq<Event>, k: nat) returns (j: nat)
    requires Safe(plan, r, log) && k < |log|
    requires log[k].ActivateCalled? || log[k].RollbackCalled? || (log[k].CopyCalled? && log[k].mode == Final)
    ensures j < k && log[j] == PauseVerified
    ensures forall i | j < i < k :: !log[i].Loaded? && log[i] != PauseCalled && !log[i].ResumeCalled?
  {
    assert AllowedAt(plan, r, log, k);
    j := VerificationWasMade(r, log, k);
  }

  lemma {:induction false} PauseWasCalled(r: Record, log: seq<Event>, k: nat) returns (p: nat)
    requires k <= |log| && Replay(r, log, k).paused
    ensures p < k && log[p] == PauseCalled
    ensures forall i | p < i < k :: log[i] != PauseCalled && log[i] != ResumeCalled(true)
  {
    hide After;
    CallFields(Replay(r, log, k - 1), log[k - 1]);
    if log[k - 1] == PauseCalled {
      p := k - 1;
    } else {
      p := PauseWasCalled(r, log, k - 1);
    }
  }

  /** Nothing since position `c` has voided a final copy of `v`. */
  predicate Undisturbed(log: seq<Event>, c: nat, k: nat, v: nat)
    requires k <= |log|
  {
    forall i | c < i < k :: !Voids(log[i]) && !CopyOf(log[i], v)
  }

  lemma {:induction false} FinalCopyWasMade(r: Record, log: seq<Event>, k: nat, v: nat) returns (c: nat)
    requires k <= |log| && v in Replay(r, log, k).final
    ensures c < k && CopyOf(log[c], v) && log[c].mode == Final && Undisturbed(log, c, k, v)
  {
    hide After;
    SyncedFields(Replay(r, log, k - 1), log[k - 1], v);
    if CopyOf(log[k - 1], v) {
      c := k - 1;
    } else {
      c := FinalCopyWasMade(r, log, k - 1, v);
    }
  }

  lemma {:induction false} CopyHasSucceeded(r: Record, log: seq<Event>, k: nat, v: nat) returns (j: nat)
    requires k <= |log| && v in Replay(r, log, k).synced
    ensures j < k && log[j] == CopySucceeded(v, Final) && Undisturbed(log, j, k, v)
  {
    hide After;
    SyncedFields(Replay(r, log, k - 1), log[k - 1], v);
    if log[k - 1] == CopySucceeded(v, Final) {
      j := k - 1;
    } else {
      j := CopyHasSucceeded(r, log, k - 1, v);
    }
  }

  lemma SuccessIsAllowed(plan: Plan, r: Record, log: seq<Event>, j: nat)
    requires Safe(plan, r, log) && j < |log| && log[j].CopySucceeded?
    ensures log[j].volume !in Replay(r, log, j).dirty
    ensures if log[j].mode == Final then log[j].volume in Replay(r, log, j).final
            else log[j].volume in Replay(r, log, j).work.warming
  {
    assert AllowedAt(plan, r, log, j);
  }

  lemma ActivationIsAllowed(plan: Plan, r: Record, log: seq<Event>, k: nat)
    requires Safe(plan, r, log) && k < |log| && log[k].ActivateCalled?
    ensures Replay(r, log, k).paused && log[k].volume in Replay(r, log, k).synced
  {
    assert AllowedAt(plan, r, log, k);
  }

  /**
   A claim is switched only to data that is complete. The newest copy of the volume, at
   `c`, is a final one that began after the last pause attempt, at `p`; its tools were
   released at `t` before it was reported complete, at `j`; and the workload was not
   resumed since the pause.
   */
  lemma ActivationFollowsFinalCopy(plan: Plan, r: Record, log: seq<Event>, k: nat)
    returns (p: nat, c: nat, t: nat, j: nat)
    requires Safe(plan, r, log) && k < |log| && log[k].ActivateCalled?
    ensures p < c < t < j < k && log[p] == PauseCalled
    ensures CopyOf(log[c], log[k].volume) && log[c].mode == Final && Undisturbed(log, c, k, log[k].volume)
    ensures log[t] == ToolsCleaned(log[k].volume, Final, log[c].attempt)
    ensures log[j] == CopySucceeded(log[k].volume, Final)
    ensures forall i | p < i < k :: log[i] != PauseCalled && log[i] != ResumeCalled(true)
  {
    hide After, Safe;
    var v := log[k].volume;
    ActivationIsAllowed(plan, r, log, k);
    p := PauseWasCalled(r, log, k);
    j := CopyHasSucceeded(r, log, k, v);
    SuccessIsAllowed(plan, r, log, j);
    c := FinalCopyWasMade(r, log, j, v);
    if forall i | c < i < j :: log[i] != ToolsCleaned(v, Final, log[c].attempt) {
      DirtyUntilCleaned(plan, r, log, c, j);
      assert false;
    }
    t :| c < t < j && log[t] == ToolsCleaned(v, Final, log[c].attempt);
  }

  lemma RestoreIsAllowed(plan: Plan, r: Record, log: seq<Event>, k: nat)
    requires Safe(plan, r, log) && k < |log| && log[k].RollbackCalled?
    ensures
      var m := Replay(r, log, k);
      m.paused || !RollbackOriginKept(m.durable.status)
  {
    assert AllowedAt(plan, r, log, k);
  }

  /**
   No source claim is put back next to a running workload: a pause attempt at `p` was
   not followed by a resume, unless the capped history of the durable record has lost
   the phase the rollback was requested from.
   */
  lemma RestoreFollowsPause(plan: Plan, r: Record, log: seq<Event>, k: nat) returns (p: nat)
    requires Safe(plan, r, log) && k < |log| && log[k].RollbackCalled?
    requires RollbackOriginKept(Replay(r, log, k).durable.status)
    ensures p < k && log[p] == PauseCalled
    ensures forall i | p < i < k :: log[i] != PauseCalled && log[i] != ResumeCalled(true)
  {
    RestoreIsAllowed(plan, r, log, k);
    p := PauseWasCalled(r, log, k);
  }

  /** A rollback restarts the workload only on restored sources, and pauses it only if it was resumed before. */
  lemma RollbackCallsFollowTheRecord(plan: Plan, r: Record, log: seq<Event>, k: nat)
    requires Safe(plan, r, log) && k < |log| && PhaseOf(Replay(r, log, k).durable) == RollingBack
    ensures log[k].ResumeCalled? ==> AllRolledBack(Replay(r, log, k).durable)
    ensures log[k] == PauseCalled ==>
              var d := Replay(r, log, k).durable;
              !AllRolledBack(d) && (NeedsPause(d.status) || !RollbackOriginKept(d.status))
  {
    assert AllowedAt(plan, r, log, k);
  }

  lemma PausedIsAllowed(plan: Plan, r: Record, log: seq<Event>, k: nat)
    requires Safe(plan, r, log) && k < |log| && log[k].Saved?
    ensures PausedForSure(Replay(r, log, k), log[k].record)
  {
    assert AllowedAt(plan, r, log, k);
  }

  /** The first record that says Paused follows a pause attempt, and a verification of it by the same invocation. */
  lemma PausedWasVerified(plan: Plan, r: Record, log: seq<Event>, k: nat) returns (p: nat, j: nat)
    requires Safe(plan, r, log) && k < |log| && log[k].Saved? && PhaseOf(log[k].record) == Paused
    requires Paused !in Replay(r, log, k).seen
    ensures p < j < k && log[p] == PauseCalled && log[j] == PauseVerified && NoLoad(log, j, k)
    ensures forall i | p < i < k :: log[i] != PauseCalled && log[i] != ResumeCalled(true)
  {
    hide After, Safe;
    PausedIsAllowed(plan, r, log, k);
    p := PauseWasCalled(r, log, k);
    j := VerificationWasMade(r, log, k);
  }

  // ----------------------------------------------------------------- aborts

  lemma AbortResumeIsAllowed(plan: Plan, r: Record, log: seq<Event>, k: nat)
    requires Safe(plan, r, log) && k < |log| && log[k].ResumeCalled?
    requires PhaseOf(Replay(r, log, k).durable) == Aborting
    ensures
      var m := Replay(r, log, k);
      AbortMayResume(m.durable) && (m.deleting ==> m.present)
  {
    assert AllowedAt(plan, r, log, k);
  }

  lemma {:induction false} SourceWasPresent(r: Record, log: seq<Event>, k: nat) returns (j: nat)
    requires k <= |log| && Replay(r, log, k).present
    ensures j < k && log[j] == SourcePresent && NoLoad(log, j, k)
  {
    hide After;
    CallFields(Replay(r, log, k - 1), log[k - 1]);
    if log[k - 1] == SourcePresent {
      j := k - 1;
    } else {
      j := SourceWasPresent(r, log, k - 1);
    }
  }

  /**
   An abort resumes only a workload that the durable record found held, unless it has
   lost that; and an abort that serves a deletion has found the source pair there, in
   the same invocation, before it resumes the workload onto it.
   */
  lemma AbortResumesOntoSource(plan: Plan, r: Record, log: seq<Event>, k: nat) returns (j: nat)
    requires Safe(plan, r, log) && k < |log| && log[k].ResumeCalled?
    requires PhaseOf(Replay(r, log, k).durable) == Aborting
    ensures NeedsResume(Replay(r, log, k).durable.status) || !AbortOriginKept(Replay(r, log, k).durable.status)
    ensures Replay(r, log, k).deleting ==> j < k && log[j] == SourcePresent && NoLoad(log, j, k)
  {
    hide After, Safe;
    AbortResumeIsAllowed(plan, r, log, k);
    j := 0;
    if Replay(r, log, k).deleting {
      j := SourceWasPresent(r, log, k);
    }
  }

  // ---------------------------------------------------------------- mounts

  lemma SharedField(m: Monitor, e: Event)
    ensures After(m, e).work.shared <==> e == MountsShared || (m.work.shared && e != MountsRestored)
  {
  }

  lemma {:induction false} SharedSince(r: Record, log: seq<Event>, i: nat, k: nat)
    requires i < k <= |log| && log[i] == MountsShared
    requires forall j | i < j < k :: log[j] != MountsRestored
    ensures Replay(r, log, k).work.shared
  {
    hide After;
    SharedField(Replay(r, log, k - 1), log[k - 1]);
    if i < k - 1 {
      SharedSince(r, log, i, k - 1);
    }
  }

  /** What is not done while a source volume may still be shared. */
  predicate NeedsMountsRestored(e: Event) {
    || e == PauseCalled || e.ResumeCalled? || e.ActivateCalled? || e.RollbackCalled?
    || (e.CopyCalled? && e.mode == Final)
    || (e.Saved? && !MayShare(PhaseOf(e.record)))
  }

  lemma UnsharedIsAllowed(plan: Plan, r: Record, log: seq<Event>, k: nat)
    requires Safe(plan, r, log) && k < |log| && NeedsMountsRestored(log[k])
    ensures !Replay(r, log, k).work.shared
  {
    assert AllowedAt(plan, r, log, k);
  }

  /**
   Once source volumes are shared, the workload is neither paused nor resumed, no claim is
   switched or restored, no final copy runs and no later phase is recorded before all of
   them were restored.
   */
  lemma MountsAreRestoredFirst(plan: Plan, r: Record, log: seq<Event>, i: nat, k: nat)
    requires Safe(plan, r, log) && i < k < |log| && log[i] == MountsShared && NeedsMountsRestored(log[k])
    ensures exists j | i < j < k :: log[j] == MountsRestored
  {
    hide Safe, NeedsMountsRestored;
    UnsharedIsAllowed(plan, r, log, k);
    if forall j | i < j < k :: log[j] != MountsRestored {
      SharedSince(r, log, i, k);
      assert false;
    }
  }

  // ------------------------------------------------------- work and records

  lemma DoneFields(m: Monitor, e: Event)
    ensures After(m, e).work.switched == if e.ActivateCalled? then m.work.switched + {e.volume} else m.work.switched
    ensures After(m, e).work.restored == if e.RollbackCalled? then m.work.restored + {e.volume} else m.work.restored
    ensures After(m, e).work.returned ==
            if e.ReserverReturned? then m.work.returned + {(e.volume, e.checkpoint)} else m.work.returned
  {
  }

  lemma {:induction false} CallsWereMade(r: Record, log: seq<Event>, k: nat)
    requires k <= |log|
    ensures forall i <- Replay(r, log, k).work.switched :: ActivateCalled(i) in log[..k]
    ensures forall i <- Replay(r, log, k).work.restored :: RollbackCalled(i) in log[..k]
    ensures forall x <- Replay(r, log, k).work.returned :: ReserverReturned(x.0, x.1) in log[..k]
  {
    hide After;
    if k > 0 {
      CallsWereMade(r, log, k - 1);
      DoneFields(Replay(r, log, k - 1), log[k - 1]);
      assert log[..k] == log[..k - 1] + [log[k - 1]];
    }
  }

  lemma SaveIsPerformed(plan: Plan, r: Record, log: seq<Event>, k: nat)
    requires Safe(plan, r, log) && k < |log| && log[k].Saved?
    ensures Performed(Replay(r, log, k), log[k].record)
  {
    assert AllowedAt(plan, r, log, k);
  }

  /**
   A durable checkpoint says only what was done: a reserved one is what the reserver
   returned for that volume, and an activated or rolled back one follows a call of the
   switcher or restorer for it. The steps of a switch are recorded in their order.
   */
  lemma RecordedWorkWasDone(plan: Plan, r: Record, log: seq<Event>, k: nat, i: nat)
    requires Safe(plan, r, log) && k < |log| && log[k].Saved? && i < |log[k].record.volumes|
    ensures
      var v := log[k].record.volumes[i];
      && (v.reservation.reserved ==> ReserverReturned(i, v.reservation) in log[..k])
      && (v.activation.activated ==> ActivateCalled(i) in log[..k])
      && (v.activation.rolledBack ==> RollbackCalled(i) in log[..k])
      && (v.activation.sourceDeleted ==> v.activation.temporaryDeleted)
      && (v.activation.destinationReserved ==> v.activation.sourceDeleted)
  {
    hide After, Safe;
    SaveIsPerformed(plan, r, log, k);
    CallsWereMade(r, log, k);
    assert WasDone(Replay(r, log, k), i, log[k].record.volumes[i]);
  }

  /** How many of the first `k` events report a complete warm copy of `v`. */
  function WarmSuccesses(log: seq<Event>, k: nat, v: nat): nat
    requires k <= |log|
  {
    if k == 0 then 0
    else WarmSuccesses(log, k - 1, v) + if log[k - 1] == CopySucceeded(v, Warm) then 1 else 0
  }

  lemma {:induction false} WarmedIsCounted(r: Record, log: seq<Event>, k: nat, v: nat)
    requires k <= |log|
    ensures WarmedOf(Replay(r, log, k), v) == WarmSuccesses(log, k, v)
  {
    hide After;
    if k > 0 {
      WarmedIsCounted(r, log, k - 1, v);
      WarmFields(Replay(r, log, k - 1), log[k - 1], v);
    }
  }

  lemma WarmFields(m: Monitor, e: Event, v: nat)
    ensures WarmedOf(After(m, e), v) == WarmedOf(m, v) + if e == CopySucceeded(v, Warm) then 1 else 0
    ensures v in After(m, e).work.warming <==>
              || (CopyOf(e, v) && e.mode == Warm)
              || (v in m.work.warming && !CopyOf(e, v) && !(e.CopySucceeded? && e.volume == v))
  {
  }

  /** Every pass that a durable record counts has copied every volume once more, in full. */
  lemma PassesWereCopied(plan: Plan, r: Record, log: seq<Event>, k: nat, v: nat)
    requires Safe(plan, r, log) && k < |log| && log[k].Saved? && v < |log[k].record.volumes|
    ensures WarmSuccesses(log, k, v) >= log[k].record.passes
  {
    hide After, Safe;
    SaveIsPerformed(plan, r, log, k);
    WarmedIsCounted(r, log, k, v);
  }

  lemma {:induction false} WarmCopyWasMade(r: Record, log: seq<Event>, k: nat, v: nat) returns (c: nat)
    requires k <= |log| && v in Replay(r, log, k).work.warming
    ensures c < k && CopyOf(log[c], v) && log[c].mode == Warm
    ensures forall i | c < i < k :: !CopyOf(log[i], v) && !(log[i].CopySucceeded? && log[i].volume == v)
  {
    hide After;
    WarmFields(Replay(r, log, k - 1), log[k - 1], v);
    if CopyOf(log[k - 1], v) {
      c := k - 1;
    } else {
      c := WarmCopyWasMade(r, log, k - 1, v);
    }
  }

  /** A complete warm copy is one copy of its own, cleaned up before it is reported. */
  lemma WarmSuccessFollowsCopy(plan: Plan, r: Record, log: seq<Event>, j: nat) returns (c: nat, t: nat)
    requires Safe(plan, r, log) && j < |log| && log[j].CopySucceeded? && log[j].mode == Warm
    ensures c < t < j && CopyOf(log[c], log[j].volume) && log[c].mode == Warm
    ensures log[t] == ToolsCleaned(log[j].volume, Warm, log[c].attempt)
    ensures forall i | c < i < j ::
              !CopyOf(log[i], log[j].volume) && !(log[i].CopySucceeded? && log[i].volume == log[j].volume)
  {
    hide After, Safe;
    var v := log[j].volume;
    SuccessIsAllowed(plan, r, log, j);
    c := WarmCopyWasMade(r, log, j, v);
    if forall i | c < i < j :: log[i] != ToolsCleaned(v, Warm, log[c].attempt) {
      DirtyUntilCleaned(plan, r, log, c, j);
      assert false;
    }
    t :| c < t < j && log[t] == ToolsCleaned(v, Warm, log[c].attempt);
  }

  // --------------------------------------------------------------- copies

  lemma CopyIsAllowed(plan: Plan, r: Record, log: seq<Event>, k: nat)
    requires Safe(plan, r, log) && k < |log| && log[k].CopyCalled?
    ensures CopyAllowed(Replay(r, log, k), log[k].volume, log[k].mode, log[k].attempt)
  {
    assert AllowedAt(plan, r, log, k);
  }

  ghost predicate Uncleaned(m: Monitor, e: Event)
    requires e.CopyCalled?
  {
    e.volume in m.dirty && m.dirty[e.volume] == e.mode && CopiedOf(m, e.volume) == e.attempt
  }

  /** Only a copy moves the newest attempt, and only a cleanup of that attempt clears the volume. */
  lemma CopyStep(m: Monitor, e: Event, v: nat)
    ensures e.CopyCalled? && e.volume == v ==> Uncleaned(After(m, e), e)
    ensures !(e.CopyCalled? && e.volume == v) ==> CopiedOf(After(m, e), v) == CopiedOf(m, v)
  {
  }

  lemma DirtyStep(m: Monitor, e: Event, v: nat)
    ensures v in m.dirty && !(e.CopyCalled? && e.volume == v)
            && e != ToolsCleaned(v, m.dirty[v], CopiedOf(m, v)) ==>
              v in After(m, e).dirty && After(m, e).dirty[v] == m.dirty[v]
  {
  }

  lemma {:induction false} CopiedGrows(plan: Plan, r: Record, log: seq<Event>, i: nat, k: nat, v: nat)
    requires Safe(plan, r, log) && i <= k <= |log|
    ensures CopiedOf(Replay(r, log, i), v) <= CopiedOf(Replay(r, log, k), v)
  {
    hide After, Safe;
    if i < k {
      if log[k - 1].CopyCalled? {
        CopyIsAllowed(plan, r, log, k - 1);
      }
      CopyStep(Replay(r, log, k - 1), log[k - 1], v);
      CopiedGrows(plan, r, log, i, k - 1, v);
    }
  }

  lemma {:induction false} DirtyUntilCleaned(plan: Plan, r: Record, log: seq<Event>, i: nat, k: nat)
    requires Safe(plan, r, log) && i < k <= |log| && log[i].CopyCalled?
    requires forall j | i < j < k :: log[j] != ToolsCleaned(log[i].volume, log[i].mode, log[i].attempt)
    ensures Uncleaned(Replay(r, log, k), log[i])
  {
    hide After, Safe;
    CopyStep(Replay(r, log, k - 1), log[k - 1], log[i].volume);
    DirtyStep(Replay(r, log, k - 1), log[k - 1], log[i].volume);
    if i < k - 1 {
      DirtyUntilCleaned(plan, r, log, i, k - 1);
      if log[k - 1].CopyCalled? {
        CopyIsAllowed(plan, r, log, k - 1);
      }
    }
  }

  lemma {:induction false} DurableWasSaved(r: Record, log: seq<Event>, k: nat)
    requires k <= |log|
    ensures
      var d := Replay(r, log, k).durable;
      d == r || exists j | 0 <= j < k :: log[j] == Saved(d)
  {
    if k > 0 {
      if !log[k - 1].Saved? {
        DurableWasSaved(r, log, k - 1);
      }
    }
  }

  /**
   Two copies of one volume never overlap: the later one has a larger attempt
   number, the earlier one was cleaned up in between, and each number was durable
   before its copy started.
   */
  lemma CopiesDoNotOverlap(plan: Plan, r: Record, log: seq<Event>, i: nat, k: nat)
    requires Safe(plan, r, log)
    requires i < k < |log| && log[i].CopyCalled? && log[k].CopyCalled? && log[i].volume == log[k].volume
    ensures log[i].attempt < log[k].attempt
    ensures exists j | i < j < k :: log[j] == ToolsCleaned(log[i].volume, log[i].mode, log[i].attempt)
    ensures
      var d := Replay(r, log, k).durable;
      && log[k].volume < |d.volumes| && d.volumes[log[k].volume].sync.attempts == log[k].attempt
      && (d == r || exists j | 0 <= j < k :: log[j] == Saved(d))
  {
    hide After, Safe;
    CopyIsAllowed(plan, r, log, k);
    CopyStep(Replay(r, log, i), log[i], log[i].volume);
    CopiedGrows(plan, r, log, i + 1, k, log[i].volume);
    if forall j | i < j < k :: log[j] != ToolsCleaned(log[i].volume, log[i].mode, log[i].attempt) {
      DirtyUntilCleaned(plan, r, log, i, k);
      assert false;
    }
    DurableWasSaved(r, log, k);
  }

  lemma EndsClean(plan: Plan, r: Record, log: seq<Event>, k: nat)
    requires Safe(plan, r, log) && k < |log|
    requires log[k].ResumeCalled? || (log[k].Saved? && PhaseOf(log[k].record) in TERMINAL_PHASES)
    ensures Replay(r, log, k).dirty == map[]
  {
    assert AllowedAt(plan, r, log, k);
  }

  /** The workload is never restarted, and no terminal phase reached, next to a copy tool that may still be running. */
  lemma ToolsStopFirst(plan: Plan, r: Record, log: seq<Event>, i: nat, k: nat)
    requires Safe(plan, r, log) && i < k < |log| && log[i].CopyCalled?
    requires log[k].ResumeCalled? || (log[k].Saved? && PhaseOf(log[k].record) in TERMINAL_PHASES)
    ensures exists j | i < j < k :: log[j] == ToolsCleaned(log[i].volume, log[i].mode, log[i].attempt)
  {
    if forall j | i < j < k :: log[j] != ToolsCleaned(log[i].volume, log[i].mode, log[i].attempt) {
      DirtyUntilCleaned(plan, r, log, i, k);
      EndsClean(plan, r, log, k);
      assert false;
    }
  }

  // ---------------------------------------------------------------- order

  lemma {:induction false} SeenSince(r: Record, log: seq<Event>, i: nat, k: nat)
    requires i < k <= |log| && log[i].Saved?
    ensures PhaseOf(log[i].record) in Replay(r, log, k).seen
  {
    if i < k - 1 {
      SeenSince(r, log, i, k - 1);
    }
  }

  lemma {:induction false} SeenWasSaved(r: Record, log: seq<Event>, k: nat, p: Phase)
    requires k <= |log| && p in Replay(r, log, k).seen
    ensures PhaseOf(r) == p || exists j | 0 <= j < k :: log[j].Saved? && PhaseOf(log[j].record) == p
  {
    if k > 0 {
      if !(log[k - 1].Saved? && PhaseOf(log[k - 1].record) == p) {
        SeenWasSaved(r, log, k - 1, p);
      }
    }
  }

  lemma SavedInOrder(plan: Plan, r: Record, log: seq<Event>, k: nat)
    requires Safe(plan, r, log) && k < |log| && log[k].Saved?
    ensures Ordered(Replay(r, log, k), log[k].record)
  {
    assert AllowedAt(plan, r, log, k);
  }

  /** The cutover begins only after a pause and a final sync became durable. */
  lemma CutoverIsPrepared(plan: Plan, r: Record, log: seq<Event>, i: nat)
    requires Safe(plan, r, log) && PhaseOf(r) == Planned
    requires i < |log| && log[i].Saved? && PhaseOf(log[i].record) in CUTOVER_PHASES
    ensures exists j | 0 <= j < i :: log[j].Saved? && PhaseOf(log[j].record) == Paused
    ensures exists j | 0 <= j < i :: log[j].Saved? && PhaseOf(log[j].record) == FinalSynced
  {
    SavedInOrder(plan, r, log, i);
    SeenWasSaved(r, log, i, Paused);
    SeenWasSaved(r, log, i, FinalSynced);
  }

  /** Once the cutover has begun no abort can become durable; an abort and a rollback are final. */
  lemma NoReturn(plan: Plan, r: Record, log: seq<Event>, i: nat, k: nat)
    requires Safe(plan, r, log) && i < k < |log| && log[i].Saved? && log[k].Saved?
    ensures PhaseOf(log[i].record) in CUTOVER_PHASES ==> PhaseOf(log[k].record) in CUTOVER_PHASES + ROLLBACK_PHASES
    ensures PhaseOf(log[i].record) in ROLLBACK_PHASES ==> PhaseOf(log[k].record) in ROLLBACK_PHASES
    ensures PhaseOf(log[i].record) in ABORT_PHASES ==> PhaseOf(log[k].record) in ABORT_PHASES
  {
    SeenSince(r, log, i, k);
    SavedInOrder(plan, r, log, k);
  }

  // ------------------------------------------------------------- capacity

  /** The reason saved at `i` was dropped by the save at `s`, excused at `j`, before the next invocation. */
  predicate DroppedAt(log: seq<Event>, i: nat, j: nat, s: nat)
    requires s < |log|
  {
    && i < j < s && Excuse(log[j]) && log[s].Saved? && log[s].record.status.reason != CapacityExhausted
    && NoLoad(log, i, s)
  }

  /** Until its reason is dropped, a capacity failure stands, or has been loaded and is final. */
  lemma {:induction false} CapacityStands(r: Record, log: seq<Event>, i: nat, k: nat)
    returns (j: Option<nat>, s: Option<nat>)
    requires i < k <= |log| && SavedExhausted(log[i])
    ensures s.Some? ==> j.Some? && s.value < k && DroppedAt(log, i, j.value, s.value)
    ensures j.Some? ==> i < j.value < k && Excuse(log[j.value])
    ensures s.None? ==>
              var m := Replay(r, log, k);
              m.capped || (m.exhausted && NoLoad(log, i, k) && (m.excused ==> j.Some?))
  {
    hide After;
    j, s := None, None;
    CapacityFields(Replay(r, log, k - 1), log[k - 1]);
    if i < k - 1 {
      j, s := CapacityStands(r, log, i, k - 1);
      if s.None? {
        if Excuse(log[k - 1]) {
          j := Some(k - 1);
        } else if !Replay(r, log, k).capped && !Replay(r, log, k).exhausted {
          s := Some(k - 1);
        }
      }
    }
  }

  lemma SaveIsHeldBack(plan: Plan, r: Record, log: seq<Event>, k: nat)
    requires Safe(plan, r, log) && k < |log| && log[k].Saved?
    ensures CapacityHeld(Replay(r, log, k), log[k].record) && PodLifecycleValid(log[k].record.status)
  {
    assert AllowedAt(plan, r, log, k);
  }

  /**
   After a capacity failure became durable no volume is copied, and no save leaves the
   copy phase but to abort, unless the same invocation dropped the reason: it was
   cancelled while recording a failure, or was told that the save of the reason failed,
   and then saved the record without it.
   */
  lemma CapacityIsFinal(plan: Plan, r: Record, log: seq<Event>, i: nat, k: nat) returns (j: nat, s: nat)
    requires Safe(plan, r, log) && i < k < |log| && SavedExhausted(log[i])
    requires log[k].CopyCalled?
             || (log[k].Saved? && PhaseOf(log[k].record) !in {WarmCopying, FinalSyncing, Aborting, Aborted})
    ensures s <= k && DroppedAt(log, i, j, s)
  {
    hide After, Safe, Excuse;
    var maybe, save := CapacityStands(r, log, i, k);
    if log[k].CopyCalled? {
      CopyIsAllowed(plan, r, log, k);
    } else {
      SaveIsHeldBack(plan, r, log, k);
    }
    j := maybe.value;
    s := if save.Some? then save.value else k;
  }

  lemma {:induction false} ReasonIsKnown(r: Record, log: seq<Event>, k: nat)
    requires k <= |log| && Replay(r, log, k).durable.status.reason == CapacityExhausted
    ensures Replay(r, log, k).exhausted
  {
    if k > 0 {
      if !log[k - 1].Saved? {
        ReasonIsKnown(r, log, k - 1);
      }
    }
  }

  lemma {:induction false} CappedStays(plan: Plan, r: Record, log: seq<Event>, i: nat, k: nat)
    requires Safe(plan, r, log) && i < k <= |log|
    requires log[i].Loaded? && log[i].record.status.reason == CapacityExhausted
    ensures Replay(r, log, k).capped
  {
    hide Allowed;
    if i < k - 1 {
      CappedStays(plan, r, log, i, k - 1);
    } else {
      LoadIsDurable(plan, r, log, i);
      ReasonIsKnown(r, log, i);
    }
  }

  lemma LoadIsDurable(plan: Plan, r: Record, log: seq<Event>, i: nat)
    requires Safe(plan, r, log) && i < |log| && log[i].Loaded?
    ensures log[i].record == Replay(r, log, i).durable
  {
    assert AllowedAt(plan, r, log, i);
  }

  /** Once an invocation has started from a capacity failure nothing excuses it any more. */
  lemma LoadedCapacityIsFinal(plan: Plan, r: Record, log: seq<Event>, i: nat, k: nat)
    requires Safe(plan, r, log) && i < k < |log|
    requires log[i].Loaded? && log[i].record.status.reason == CapacityExhausted
    ensures !log[k].CopyCalled?
    ensures log[k].Saved? ==> PhaseOf(log[k].record) in {WarmCopying, FinalSyncing, Aborting, Aborted}
  {
    CappedStays(plan, r, log, i, k);
    assert AllowedAt(plan, r, log, k);
  }
}
