/**
 The two offline executors, the namespaced one and its cluster-scoped twin, run side
 by side on the same outcomes. Each works on its own record in its own form; the
 invariant is that one record is the other, qualified, at every durable point and at
 every branch.
 */
module OfflineTwins {
  import opened Lifecycle
  import opened Checkpoints
  import opened OfflineRecords
  import OfflineLog

  function PhaseOf(r: Record): Phase {
    Effective(r.status)
  }

  // ------------------------------------------------------------- invariant

  predicate Prefix(volumes: seq<Volume>) {
    forall i, j | 0 <= i < j < |volumes| :: volumes[j].activation.activated ==> volumes[i].activation.activated
  }

  predicate Suffix(volumes: seq<Volume>) {
    forall i, j | 0 <= i < j < |volumes| :: volumes[i].activation.rolledBack ==> volumes[j].activation.rolledBack
  }

  predicate VolumeGood(spec: VolumeSpec, v: Volume, phase: Phase) {
    && v.reservation.source == spec.sourcePVC.name
    && VolumeValid(spec, v, phase)
    && (v.activation.activated ==> phase in CUTOVER_PHASES + ROLLBACK_PHASES)
    && (v.activation.rolledBack ==> phase in ROLLBACK_PHASES)
  }

  predicate VolumesGood(plan: seq<VolumeSpec>, volumes: seq<Volume>, phase: Phase) {
    || (volumes == [] && UncoveredAllowed(phase))
    || (|volumes| == |plan| && forall i | 0 <= i < |plan| :: VolumeGood(plan[i], volumes[i], phase))
  }

  /** Activated volumes are a prefix of the plan, rolled back ones a suffix, and the record is valid. */
  predicate Good(plan: seq<VolumeSpec>, r: Record) {
    && OfflineLifecycleValid(r.status) && OfflinePhase(PhaseOf(r))
    && (PhaseOf(r) in {Aborted, RolledBack} ==> r.status.phase == PhaseOf(r))
    && VolumesGood(plan, r.volumes, PhaseOf(r))
    && Prefix(r.volumes) && Suffix(r.volumes)
  }

  lemma GoodIsValid(plan: seq<VolumeSpec>, r: Record)
    requires Good(plan, r) && plan != [] && PlanValid(plan, true)
    ensures RecordValid(plan, r)
  {
    hide VolumeValid, PlanValid;
    if r.volumes != [] {
      assert DistinctSources(plan) by { SourcesAreDistinct(plan); }
      forall i | 0 <= i < |r.volumes| ensures Known(plan, r.volumes[i], PhaseOf(r)) {
        assert VolumeGood(plan[i], r.volumes[i], PhaseOf(r));
        assert plan[i] in plan;
      }
    }
  }

  lemma RecordedPhase(s: Status, next: Phase)
    ensures Effective(Recorded(s, next)) == if next == Failed then Effective(s) else next
  {
  }

  lemma SourcesAreDistinct(plan: seq<VolumeSpec>)
    requires PlanValid(plan, true)
    ensures DistinctSources(plan)
  {
  }

  predicate VolumeReady(v: Volume, next: Phase) {
    && (next == Reserved ==> v.reservation.reserved)
    && (next == FinalSynced ==> v.sync.finalDone)
    && (next == Activated ==> v.activation.activated)
    && (next == RolledBack ==> v.activation.rolledBack)
  }

  predicate Ready(r: Record, next: Phase) {
    && (next !in {Failed, PhaseOf(r)} ==>
          && (next == Reserved ==> r.volumes != [])
          && forall i | 0 <= i < |r.volumes| :: VolumeReady(r.volumes[i], next))
    && (next == Failed ==> PhaseOf(r) !in {Aborted, RolledBack})
  }

  lemma MoveVolume(spec: VolumeSpec, v: Volume, phase: Phase, next: Phase)
    requires VolumeGood(spec, v, phase) && next in OfflineEdges(phase) && VolumeReady(v, next)
    ensures VolumeGood(spec, v, next)
  {
    hide LocalCheckpointValid;
  }

  lemma MoveGood(plan: seq<VolumeSpec>, r: Record, next: Phase)
    requires Good(plan, r) && OfflineMove(PhaseOf(r), next) && Ready(r, next)
    ensures Good(plan, r.(status := Recorded(r.status, next)))
  {
    hide VolumeGood, VolumeReady;
    var phase := PhaseOf(r);
    var to := r.(status := Recorded(r.status, next));
    assert PhaseOf(to) == if next == Failed then phase else next;
    if PhaseOf(to) != phase {
      forall i | 0 <= i < |r.volumes| && |r.volumes| == |plan| ensures VolumeGood(plan[i], r.volumes[i], next) {
        MoveVolume(plan[i], r.volumes[i], phase, next);
      }
    }
  }

  function With(r: Record, i: nat, v: Volume): Record
    requires i < |r.volumes|
  {
    r.(volumes := r.volumes[i := v])
  }

  /** Order is kept by a checkpoint that leaves it alone, extends the prefix or extends the suffix. */
  predicate InOrder(r: Record, i: nat, a: Activation)
    requires i < |r.volumes|
  {
    var b := r.volumes[i].activation;
    && (a.activated == b.activated || (a.activated && forall j | 0 <= j < i :: r.volumes[j].activation.activated))
    && (a.rolledBack == b.rolledBack || (a.rolledBack && forall j | i < j < |r.volumes| :: r.volumes[j].activation.rolledBack))
  }

  lemma CheckpointGood(plan: seq<VolumeSpec>, r: Record, i: nat, v: Volume)
    requires Good(plan, r) && i < |r.volumes| == |plan| && VolumeGood(plan[i], v, PhaseOf(r))
    requires InOrder(r, i, v.activation)
    ensures Good(plan, With(r, i, v))
  {
    hide VolumeGood;
    var to := With(r, i, v);
    assert Prefix(to.volumes);
    assert Suffix(to.volumes);
  }

  lemma VolumeAt(plan: seq<VolumeSpec>, r: Record, i: nat)
    requires Good(plan, r) && i < |r.volumes|
    ensures |r.volumes| == |plan| && VolumeGood(plan[i], r.volumes[i], PhaseOf(r))
  {
    hide VolumeGood;
  }

  lemma Covered(plan: seq<VolumeSpec>, r: Record)
    requires Good(plan, r)
    ensures OfflinePhase(PhaseOf(r))
    ensures r.volumes == [] || |r.volumes| == |plan|
    ensures PhaseOf(r) !in {Planned, Reserving, Aborting, Aborted} ==> |r.volumes| == |plan|
  {
    hide VolumeGood;
  }

  function NewVolume(spec: VolumeSpec): Volume {
    Volume(Unreserved(spec.sourcePVC.name), Sync(false, false, 0), NO_ACTIVATION)
  }

  function NewVolumes(plan: seq<VolumeSpec>): (volumes: seq<Volume>)
    ensures |volumes| == |plan| && forall i | 0 <= i < |plan| :: volumes[i] == NewVolume(plan[i])
  {
    seq(|plan|, i requires 0 <= i < |plan| => NewVolume(plan[i]))
  }

  lemma NewVolumesGood(plan: seq<VolumeSpec>, r: Record)
    requires Good(plan, r) && r.volumes == []
    ensures Good(plan, r.(volumes := NewVolumes(plan)))
  {
  }

  /** What a final sync starts from: only a record resting in FinalSynced loses its marks. */
  function Restarted(r: Record): Record {
    Record(
      Recorded(r.status, FinalSyncing),
      if r.status.phase == FinalSynced then Cleared(r.volumes) else r.volumes)
  }

  function Cleared(volumes: seq<Volume>): (cleared: seq<Volume>)
    ensures |cleared| == |volumes|
    ensures forall i | 0 <= i < |volumes| ::
              cleared[i] == volumes[i].(sync := volumes[i].sync.(finalDone := false, checksumVerified := false))
  {
    seq(|volumes|, i requires 0 <= i < |volumes| =>
      volumes[i].(sync := volumes[i].sync.(finalDone := false, checksumVerified := false)))
  }

  lemma RestartGood(plan: seq<VolumeSpec>, r: Record)
    requires Good(plan, r) && OfflineMove(PhaseOf(r), FinalSyncing)
    ensures Good(plan, Restarted(r)) && PhaseOf(Restarted(r)) == FinalSyncing
  {
    hide OfflineMove;
    MoveGood(plan, r, FinalSyncing);
    var started := r.(status := Recorded(r.status, FinalSyncing));
    Covered(plan, started);
    var to := Restarted(r);
    if to.volumes != r.volumes {
      forall i | 0 <= i < |plan| ensures VolumeGood(plan[i], to.volumes[i], FinalSyncing) {
        VolumeAt(plan, started, i);
      }
    }
  }

  // ------------------------------------------------------------------ work

  predicate Interrupted(v: Volume) {
    v.sync.attempts != 0 && !v.sync.finalDone
  }

  /**
   Copies ran under recorded attempts; one not cleaned up is the newest attempt of an
   unfinished volume; and every checkpoint says only what was done.
   */
  predicate VolumesTidy(w: OfflineLog.Work, volumes: seq<Volume>, namespace: string) {
    && (forall v <- w.newest :: v < |volumes| && w.newest[v] <= volumes[v].sync.attempts)
    && (forall v <- w.open ::
          v < |volumes| && v in w.newest && w.newest[v] == volumes[v].sync.attempts && Interrupted(volumes[v]))
    && (forall i: nat | i < |volumes| :: OfflineLog.WasDone(w, i, QualifyVolume(volumes[i], namespace)))
  }

  /** The phases in which a copy may be left behind. */
  predicate MayBeOpen(p: Phase) {
    p in {FinalSyncing, Aborting}
  }

  predicate Tidy(w: OfflineLog.Work, r: Record, namespace: string) {
    VolumesTidy(w, r.volumes, namespace) && (!MayBeOpen(PhaseOf(r)) ==> w.open == {})
  }

  /** A checkpoint of one volume that says only what was done; its marks move only with no copy left behind. */
  predicate MarksFit(w: OfflineLog.Work, volumes: seq<Volume>, i: nat, v: Volume, namespace: string)
    requires i < |volumes|
  {
    && (v.sync == volumes[i].sync || (i !in w.open && v.sync.attempts >= volumes[i].sync.attempts))
    && OfflineLog.WasDone(w, i, QualifyVolume(v, namespace))
  }

  lemma TidyWith(w: OfflineLog.Work, r: Record, i: nat, v: Volume, namespace: string)
    requires Tidy(w, r, namespace) && i < |r.volumes| && MarksFit(w, r.volumes, i, v, namespace)
    ensures Tidy(w, With(r, i, v), namespace)
  {
    hide OfflineLog.WasDone;
    assert PhaseOf(With(r, i, v)) == PhaseOf(r);
  }

  lemma TidyMove(w: OfflineLog.Work, r: Record, to: Record, namespace: string)
    requires Tidy(w, r, namespace) && to.volumes == r.volumes
    requires MayBeOpen(PhaseOf(r)) && !MayBeOpen(PhaseOf(to)) ==> w.open == {}
    ensures Tidy(w, to, namespace)
  {
    hide VolumesTidy;
  }

  /** What the log says of one volume of a tidy record. */
  lemma DoneAt(w: OfflineLog.Work, r: Record, i: nat, namespace: string)
    requires Tidy(w, r, namespace) && i < |r.volumes|
    ensures OfflineLog.WasDone(w, i, QualifyVolume(r.volumes[i], namespace))
    ensures OfflineLog.NewestOf(w, i) <= r.volumes[i].sync.attempts || i !in w.newest
    ensures i in w.open ==> Interrupted(r.volumes[i])
  {
  }

  lemma OpenIsInterrupted(w: OfflineLog.Work, r: Record, namespace: string)
    requires Tidy(w, r, namespace)
    ensures forall v <- w.open :: v < |r.volumes| && Interrupted(r.volumes[v])
  {
  }

  lemma TidyIsAllowed(s: OfflineLog.Seen, r: Record, c: ClusterRecord, namespace: string)
    requires Tidy(s.work, r, namespace) && c == Qualify(r, namespace)
    ensures OfflineLog.Allowed(s, OfflineLog.Stored(c))
  {
    hide OfflineLog.WasDone;
  }

  predicate AllCleaned(volumes: seq<Volume>, n: nat, events: seq<OfflineLog.Event>)
    requires n <= |volumes|
  {
    forall j | 0 <= j < n && Interrupted(volumes[j]) ::
      OfflineLog.Cleaned(j, volumes[j].sync.attempts) in events
  }

  lemma NoneToClean(volumes: seq<Volume>, events: seq<OfflineLog.Event>)
    ensures AllCleaned(volumes, 0, events)
  {
  }

  lemma CleanedOneMore(volumes: seq<Volume>, n: nat, events: seq<OfflineLog.Event>, more: seq<OfflineLog.Event>)
    requires n < |volumes| && AllCleaned(volumes, n, events)
    requires if Interrupted(volumes[n]) then more == events + [OfflineLog.Cleaned(n, volumes[n].sync.attempts)]
             else more == events
    ensures AllCleaned(volumes, n + 1, more)
  {
  }

  lemma TidyNew(w: OfflineLog.Work, r: Record, plan: seq<VolumeSpec>, namespace: string)
    requires Tidy(w, r, namespace) && r.volumes == []
    ensures Tidy(w, r.(volumes := NewVolumes(plan)), namespace)
  {
  }

  lemma TidyRestarted(w: OfflineLog.Work, r: Record, namespace: string)
    requires Tidy(w, r, namespace)
    ensures Tidy(w, Restarted(r), namespace)
  {
    forall i: nat | i < |r.volumes|
      ensures OfflineLog.WasDone(w, i, QualifyVolume(Restarted(r).volumes[i], namespace))
    {
      assert OfflineLog.WasDone(w, i, QualifyVolume(r.volumes[i], namespace));
    }
  }

  /** What one event keeps: a cleanup, a success, a switch, a restore or an answer of the reserver. */
  lemma TidyAfter(w: OfflineLog.Work, r: Record, e: OfflineLog.Event, namespace: string)
    requires Tidy(w, r, namespace) && !e.Copied?
    ensures Tidy(OfflineLog.WorkAfter(w, e), r, namespace)
  {
    forall i: nat | i < |r.volumes|
      ensures OfflineLog.WasDone(OfflineLog.WorkAfter(w, e), i, QualifyVolume(r.volumes[i], namespace))
    {
      assert OfflineLog.WasDone(w, i, QualifyVolume(r.volumes[i], namespace));
    }
  }

  lemma TidyCopied(w: OfflineLog.Work, r: Record, i: nat, namespace: string)
    requires Tidy(w, r, namespace) && i < |r.volumes| && Interrupted(r.volumes[i]) && PhaseOf(r) == FinalSyncing
    ensures Tidy(OfflineLog.WorkAfter(w, OfflineLog.Copied(i, r.volumes[i].sync.attempts)), r, namespace)
  {
    var n := OfflineLog.WorkAfter(w, OfflineLog.Copied(i, r.volumes[i].sync.attempts));
    forall j: nat | j < |r.volumes| ensures OfflineLog.WasDone(n, j, QualifyVolume(r.volumes[j], namespace)) {
      assert OfflineLog.WasDone(w, j, QualifyVolume(r.volumes[j], namespace));
    }
  }

  // ------------------------------------------------------------- the twins

  /** Where a successful run ends: forward, unless a rollback or an abort was under way. */
  function RunEnd(phase: Phase): Phase {
    if phase in ABORT_PHASES then Aborted else if phase in ROLLBACK_PHASES then RolledBack else Completed
  }

  /** Where a deletion drives a workflow: a started cutover or rollback to its end, everything else to an abort. */
  function DeletionEnd(phase: Phase): Phase {
    if phase in {Completed, RolledBack, Aborted} then phase
    else if phase in {Activating, Activated, Resuming} then Completed
    else if phase == RollingBack then RolledBack
    else Aborted
  }

  /** The reason of a failure belongs to the phase that copies. */
  lemma ReasonPhase(plan: seq<VolumeSpec>, r: Record)
    requires Good(plan, r)
    ensures r.status.reason == CapacityExhausted ==> PhaseOf(r) == FinalSyncing
  {
    hide VolumesGood;
  }

  /** A record that is aborted or rolled back is not failed again. */
  lemma EndedRests(plan: seq<VolumeSpec>, r: Record)
    requires Good(plan, r)
    ensures PhaseOf(r) in {Aborted, RolledBack} ==> r.status.phase == PhaseOf(r)
  {
    hide VolumesGood;
  }

  /** The moves the stages make. */
  lemma StageMoves()
    ensures OfflineMove(Planned, Reserving) && OfflineMove(Reserving, Reserving) && OfflineMove(Reserving, Reserved)
    ensures OfflineMove(Reserved, Reserved) && OfflineMove(Reserved, FinalSyncing) && OfflineMove(FinalSyncing, FinalSyncing)
    ensures OfflineMove(FinalSyncing, FinalSynced) && OfflineMove(FinalSynced, FinalSyncing)
  {
  }

  /** The moves of the stages after the final sync. */
  lemma CutoverMoves()
    ensures OfflineMove(FinalSynced, Activating) && OfflineMove(Activating, Activating) && OfflineMove(Activating, Activated)
    ensures OfflineMove(Activated, Activated) && OfflineMove(Activated, Completed) && OfflineMove(Resuming, Completed)
    ensures OfflineMove(Completed, Completed) && OfflineMove(RolledBack, RolledBack)
    ensures OfflineMove(RollingBack, RolledBack) && OfflineMove(Aborting, Aborted)
  {
  }

  lemma TurningBack(phase: Phase)
    requires OfflinePhase(phase)
    ensures AbortGate(phase) && phase != Aborted ==> OfflineMove(phase, Aborting)
    ensures phase in {FinalSynced, RollingBack} + CUTOVER_PHASES ==> OfflineMove(phase, RollingBack)
  {
  }

  /** What the executors themselves refuse to do to a record; all else that stops them is a failure outside. */
  predicate Declines(command: Command, r: Record, deleting: bool) {
    var phase, exhausted := PhaseOf(r), r.status.reason == CapacityExhausted;
    || deleting != command.FinalizeDeleted?
    || match command
       case Reserve => phase !in {Planned, Reserving, Reserved}
       case FinalSync => phase !in {Reserved, FinalSyncing, FinalSynced} || exhausted
       case Activate => phase !in {FinalSynced, Activating, Activated, Completed}
       case Rollback => phase !in {FinalSynced} + CUTOVER_PHASES + ROLLBACK_PHASES
       case Abort => !AbortGate(phase)
       case Run => exhausted
       case RequestResume => exhausted
       case FinalizeDeleted => false
  }

  /** A deletion converges forward exactly where an abort would be refused. */
  lemma DeletionChoice(p: Phase)
    requires OfflinePhase(p) && p !in TERMINAL_PHASES
    ensures DeletionRequiresConvergence(p) <==> !AbortGate(p)
    ensures DeletionEnd(p) == Aborted <==> AbortGate(p)
    ensures DeletionEnd(p) == Completed <==> p in CUTOVER_PHASES
    ensures DeletionEnd(p) == RolledBack <==> p in ROLLBACK_PHASES
  {
  }

  /** What a save did: whether it reached the store, and what the executor was told. */
  datatype Outcome = Outcome(committed: bool, acknowledged: bool)

  datatype Command = Reserve | FinalSync | Activate | Rollback | Abort | Run | RequestResume | FinalizeDeleted

  class TwinExecutors {
    const plan: seq<VolumeSpec>
    const namespace: string
    const retries: nat
    var local: Record
    var localMem: Record
    var cluster: ClusterRecord
    var clusterMem: ClusterRecord
    var deleting: bool
    ghost var log: seq<OfflineLog.Event>
    ghost var seen: OfflineLog.Seen
    ghost var hitch: bool  // something outside the executors failed in this invocation

    /** Everything either executor ever did was in order. */
    ghost predicate Logged()
      reads `log, `seen
    {
      OfflineLog.Disciplined(log) && seen == OfflineLog.Replay(log, |log|)
    }

    ghost predicate Inv()
      reads `local, `cluster, `log, `seen
    {
      && plan != [] && PlanValid(plan, true) && retries > 0
      && Good(plan, local)
      && cluster == Qualify(local, namespace)
      && Logged() && seen.stored == cluster.volumes
      && Tidy(seen.work, local, namespace)
    }

    ghost predicate Working()
      reads `local, `cluster, `localMem, `clusterMem, `log, `seen
    {
      && Inv() && Good(plan, localMem) && clusterMem == Qualify(localMem, namespace)
      && Tidy(seen.work, localMem, namespace)
    }

    ghost predicate Synced()
      reads `local, `cluster, `localMem, `clusterMem, `log, `seen
    {
      Working() && localMem == local
    }

    /** Only saves were logged. */
    twostate predicate OnlySaves()
      reads `log, `seen, `hitch
    {
      seen.work == old(seen).work && old(log) <= log && (old(hitch) ==> hitch)
    }

    constructor (plan: seq<VolumeSpec>, namespace: string, configuredRetries: int, status: Status)
      requires plan != [] && PlanValid(plan, true)
      requires OfflineLifecycleValid(status) && Effective(status) == Planned
      ensures Synced() && local == Record(status, []) && this.plan == plan && this.namespace == namespace && log == []
    {
      this.plan := plan;
      this.namespace := namespace;
      this.retries := if configuredRetries <= 0 then 3 else configuredRetries;
      this.local := Record(status, []);
      this.localMem := Record(status, []);
      this.cluster := ClusterRecord(status, []);
      this.clusterMem := ClusterRecord(status, []);
      this.deleting := false;
      this.log := [];
      this.seen := OfflineLog.NOTHING;
      this.hitch := false;
    }

    /** Something is done to a volume. */
    ghost method Note(e: OfflineLog.Event)
      requires Synced() && !e.Stored? && OfflineLog.Allowed(seen, e)
      requires Tidy(OfflineLog.WorkAfter(seen.work, e), localMem, namespace)
      modifies `log, `seen
      ensures Synced() && log == old(log) + [e]
      ensures seen == old(seen).(work := OfflineLog.WorkAfter(old(seen).work, e))
    {
      hide Good, Qualify, Tidy, OfflineLog.Allowed;
      OfflineLog.Append(log, e);
      log := log + [e];
      seen := OfflineLog.After(seen, e);
    }

    lemma RetriesAreSet()
      requires Inv()
      ensures retries > 0
    {
    }

    /** A branch of the two executors: they may only be asked the same question with the same answer. */
    method Both(l: bool, c: bool) returns (b: bool)
      requires l == c
      ensures b == l == c
    {
      b := l;
    }

    method Check() returns (ok: bool)
      modifies `hitch
      ensures hitch == (old(hitch) || !ok)
    {
      ok := *;
      hitch := hitch || !ok;
    }

    /** The UID of the claim that was put in place; none if the call failed. */
    method ClaimUid() returns (uid: string)
      modifies `hitch
      ensures hitch == (old(hitch) || uid == "")
    {
      uid := *;
      hitch := hitch || uid == "";
    }

    /** One save outcome, applied to each store. */
    method Persist() returns (ok: bool)
      requires Working()
      modifies `local, `cluster, `log, `seen, `hitch
      ensures Working() && (local == old(local) || local == localMem) && OnlySaves()
      ensures ok ==> local == localMem
      ensures !ok ==> hitch
    {
      hide Good, Qualify, Tidy, OfflineLog.Allowed;
      var outcome: Outcome := *;
      ghost var stored := OfflineLog.Stored(clusterMem);
      if outcome.committed {
        TidyIsAllowed(seen, localMem, clusterMem, namespace);
        OfflineLog.Append(log, stored);
        log := log + [stored];
        seen := OfflineLog.After(seen, stored);
      }
      if outcome.committed {
        local := localMem;
      }
      if outcome.committed {
        cluster := clusterMem;
      }
      ok := outcome.committed && outcome.acknowledged;
      hitch := hitch || !ok;
    }

    /** Each executor puts its own previous record back when the save is not acknowledged. */
    method Publish(previousLocal: Record, previousCluster: ClusterRecord) returns (ok: bool)
      requires Working() && Good(plan, previousLocal) && previousCluster == Qualify(previousLocal, namespace)
      requires Tidy(seen.work, previousLocal, namespace)
      modifies `local, `cluster, `localMem, `clusterMem, `log, `seen, `hitch
      ensures Working() && OnlySaves()
      ensures ok ==> Synced() && localMem == old(localMem)
      ensures !ok ==> localMem == previousLocal
      ensures !ok ==> hitch
    {
      hide Good, Qualify, Tidy, Logged;
      ok := Persist();
      if !ok {
        localMem := previousLocal;
      }
      if !ok {
        clusterMem := previousCluster;
      }
    }

    method Transition(next: Phase) returns (ok: bool)
      requires Working() && Ready(localMem, next)
      requires MayBeOpen(PhaseOf(localMem)) && !MayBeOpen(next) && next != Failed ==> seen.work.open == {}
      modifies `local, `cluster, `localMem, `clusterMem, `log, `seen, `hitch
      ensures Working() && OnlySaves()
      ensures ok ==> Synced() && localMem == old(localMem).(status := Recorded(old(localMem).status, next))
      ensures ok && next != Failed ==> localMem.status.phase == next
      ensures !ok ==> localMem == old(localMem)
      ensures !ok ==> hitch || !OfflineMove(PhaseOf(old(localMem)), next)
    {
      hide Good, VolumeReady, Tidy, Logged;
      var allowed := Both(OfflineMove(Effective(localMem.status), next), OfflineMove(Effective(clusterMem.status), next));
      if !allowed {
        return false;
      }
      MoveGood(plan, localMem, next);
      RecordedPhase(localMem.status, next);
      TidyMove(seen.work, localMem, localMem.(status := Recorded(localMem.status, next)), namespace);
      var previousLocal, previousCluster := localMem, clusterMem;
      localMem := localMem.(status := Recorded(localMem.status, next));
      clusterMem := clusterMem.(status := Recorded(clusterMem.status, next));
      assert clusterMem == Qualify(localMem, namespace);
      ok := Publish(previousLocal, previousCluster);
    }

    /** The capacity reason is kept only for the phase it belongs to; a cancelled driver records no failure. */
    method Fail(capacity: bool)
      requires Working() && PhaseOf(localMem) !in {Aborted, RolledBack}
      modifies `local, `cluster, `localMem, `clusterMem, `log, `seen, `hitch
      ensures Working() && PhaseOf(localMem) == PhaseOf(old(localMem))
      ensures localMem.status.phase == Failed && old(localMem).status.phase != Failed ==>
                (localMem.status.reason == CapacityExhausted <==> capacity && PhaseOf(old(localMem)) == FinalSyncing)
      ensures old(hitch) ==> hitch
    {
      hide Good, Tidy, Logged;
      var fenced: bool := *;
      var cancelled: bool := *;
      if fenced {
        return;
      }
      var syncing := Both(Effective(localMem.status) == FinalSyncing, Effective(clusterMem.status) == FinalSyncing);
      var reason := if capacity && syncing then CapacityExhausted else NoReason;
      var previousLocal, previousCluster := localMem, clusterMem;
      FailedStatus(plan, localMem, reason);
      TidyMove(seen.work, localMem, localMem.(status := Recorded(localMem.status.(reason := reason), Failed)), namespace);
      TidyMove(seen.work, localMem, localMem.(status := localMem.status.(reason := NoReason)), namespace);
      if cancelled {
        localMem := localMem.(status := localMem.status.(reason := NoReason));
        clusterMem := clusterMem.(status := clusterMem.status.(reason := NoReason));
      } else {
        localMem := localMem.(status := Recorded(localMem.status.(reason := reason), Failed));
        clusterMem := clusterMem.(status := Recorded(clusterMem.status.(reason := reason), Failed));
      }
      assert clusterMem == Qualify(localMem, namespace);
      var saved := Publish(previousLocal, previousCluster);
    }

    /** The failure of a stage. */
    method GiveUp()
      requires Working() && PhaseOf(localMem) !in {Aborted, RolledBack}
      modifies `local, `cluster, `localMem, `clusterMem, `log, `seen, `hitch
      ensures Inv() && (old(hitch) ==> hitch)
    {
      hide Good, Tidy, Logged;
      Fail(false);
    }

    /** The transition that ends a stage. */
    method Finish(next: Phase) returns (ok: bool)
      requires Working() && Ready(localMem, next) && next != Failed && OfflineMove(PhaseOf(localMem), next)
      requires MayBeOpen(PhaseOf(localMem)) && !MayBeOpen(next) ==> seen.work.open == {}
      modifies `local, `cluster, `localMem, `clusterMem, `log, `seen, `hitch
      ensures Inv() && (old(hitch) ==> hitch)
      ensures ok ==> Synced() && localMem.status.phase == next && localMem.volumes == old(localMem).volumes
      ensures !ok ==> hitch
    {
      hide Good, Tidy, Logged, Recorded, Ready, OfflineMove;
      ok := Transition(next);
    }

    /** One volume's checkpoint, in each form. */
    method PublishVolume(i: nat, v: Volume, c: ClusterVolume) returns (ok: bool)
      requires Working() && i < |localMem.volumes|
      requires Good(plan, With(localMem, i, v)) && c == QualifyVolume(v, namespace)
      requires MarksFit(seen.work, localMem.volumes, i, v, namespace)
      modifies `local, `cluster, `localMem, `clusterMem, `log, `seen, `hitch
      ensures Working() && OnlySaves()
      ensures ok ==> Synced() && localMem == With(old(localMem), i, v)
      ensures !ok ==> localMem == old(localMem)
      ensures !ok ==> hitch
    {
      hide Good, Tidy, Logged, MarksFit;
      TidyWith(seen.work, localMem, i, v, namespace);
      var previousLocal, previousCluster := localMem, clusterMem;
      localMem := With(localMem, i, v);
      clusterMem := clusterMem.(volumes := clusterMem.volumes[i := c]);
      assert clusterMem == Qualify(localMem, namespace);
      ok := Publish(previousLocal, previousCluster);
    }

    // ------------------------------------------------------ reservation

    /** The reserver is called with the same request and its checkpoint stays in the request's namespaces. */
    method CallReserver(i: nat, fromLocal: ClusterReservation, fromCluster: ClusterReservation)
      returns (ok: bool, checkpoint: ClusterReservation)
      requires i < |plan| && fromLocal == fromCluster
      requires ClusterReservationValid(plan[i], fromCluster, namespace)
      modifies `hitch
      ensures hitch == (old(hitch) || !ok || !checkpoint.reserved)
      ensures checkpoint.source == fromCluster.source && ClusterReservationValid(plan[i], checkpoint, namespace)
    {
      ok := *;
      checkpoint := *;
      if checkpoint.source != fromCluster.source || !ClusterReservationValid(plan[i], checkpoint, namespace) {
        checkpoint := fromCluster;
      }
      hitch := hitch || !ok || !checkpoint.reserved;
    }

    ghost method Answered(i: nat, c: ClusterReservation)
      requires Synced()
      modifies `log, `seen
      ensures Synced() && seen == old(seen).(work := OfflineLog.WorkAfter(old(seen).work, OfflineLog.Returned(i, c)))
    {
      hide Good, Qualify, Tidy, Logged;
      TidyAfter(seen.work, localMem, OfflineLog.Returned(i, c), namespace);
      Note(OfflineLog.Returned(i, c));
    }

    method ReserveVolume(i: nat) returns (ok: bool)
      requires Synced() && PhaseOf(localMem) == Reserving && i < |localMem.volumes|
      requires !localMem.volumes[i].reservation.reserved
      modifies `local, `cluster, `localMem, `clusterMem, `log, `seen, `hitch
      ensures Working() && localMem.status == old(localMem).status && |localMem.volumes| == |old(localMem).volumes|
      ensures forall j | 0 <= j < |localMem.volumes| && j != i :: localMem.volumes[j] == old(localMem).volumes[j]
      ensures ok ==> Synced() && localMem.volumes[i].reservation.reserved
      ensures !ok ==> hitch
    {
      hide Good;
      VolumeAt(plan, localMem, i);
      var spec, v, w := plan[i], localMem.volumes[i], clusterMem.volumes[i];
      VolumeValidatorsAgree(spec, v, Reserving, namespace);
      var reserved, c := CallReserver(i, QualifiedReservation(v.reservation, namespace), w.reservation);
      var localized := LocalReservation(c, namespace);
      ReservationGood(plan, localMem, i, c, namespace);
      DoneAt(seen.work, localMem, i, namespace);
      Answered(i, c);
      ok := PublishVolume(i, v.(reservation := localized.value), w.(reservation := c));
      var complete := Both(localized.value.reserved, c.reserved);
      ok := ok && reserved && complete;
    }

    method Reserve() returns (ok: bool)
      requires Synced()
      modifies `local, `cluster, `localMem, `clusterMem, `log, `seen, `hitch
      ensures Inv() && (ok ==> Synced() && localMem.status.phase == Reserved)
      ensures !ok ==> hitch || PhaseOf(old(localMem)) !in {Planned, Reserving, Reserved}
    {
      hide Good, Recorded, Tidy, Logged, OfflineMove;
      StageMoves();
      ok := Check();
      var phase := PhaseOf(localMem);
      var accepted := Both(phase in {Planned, Reserving, Reserved},
                           Effective(clusterMem.status) in {Planned, Reserving, Reserved});
      if !ok || !accepted {
        return false;
      }
      var done := Both(localMem.status.phase == Reserved, clusterMem.status.phase == Reserved);
      if done {
        return true;
      }
      var revalidate := Both(localMem.status.phase == Failed && localMem.status.resumeFrom == Reserved,
                             clusterMem.status.phase == Failed && clusterMem.status.resumeFrom == Reserved);
      if revalidate {
        ok := Transition(Reserved);
        return;
      }
      ok := Check();
      if ok {
        ok := ReserveStorage();
      }
    }

    /** Creates the checkpoints with the phase that needs them, or neither. */
    method BeginReserving() returns (ok: bool)
      requires Synced() && PhaseOf(localMem) in {Planned, Reserving}
      modifies `local, `cluster, `localMem, `clusterMem, `log, `seen, `hitch
      ensures Inv() && (ok ==> Synced() && localMem.status.phase == Reserving && |localMem.volumes| == |plan| > 0)
      ensures !ok ==> hitch
    {
      hide Good, Recorded, Tidy, Logged, OfflineMove;
      StageMoves();
      Covered(plan, localMem);
      var previousLocal, previousCluster := localMem, clusterMem;
      var empty := Both(|localMem.volumes| == 0, |clusterMem.volumes| == 0);
      if empty {
        NewVolumesGood(plan, localMem);
        TidyNew(seen.work, localMem, plan, namespace);
        localMem := localMem.(volumes := NewVolumes(plan));
        clusterMem := clusterMem.(volumes := NewClusterVolumes(plan));
        assert clusterMem == Qualify(localMem, namespace);
      }
      ok := Transition(Reserving);
      if !ok {
        localMem := previousLocal;
        clusterMem := previousCluster;
      }
    }

    method ReserveStorage() returns (ok: bool)
      requires Synced() && PhaseOf(localMem) in {Planned, Reserving}
      modifies `local, `cluster, `localMem, `clusterMem, `log, `seen, `hitch
      ensures Inv() && (ok ==> Synced() && localMem.status.phase == Reserved)
      ensures !ok ==> hitch
    {
      hide Good, Recorded, Tidy, Logged, OfflineMove;
      StageMoves();
      ok := BeginReserving();
      if !ok {
        return;
      }
      ok := ReserveAll();
      if !ok {
        GiveUp();
        return;
      }
      ok := Finish(Reserved);
    }

    method ReserveAll() returns (ok: bool)
      requires Synced() && localMem.status.phase == Reserving && |localMem.volumes| == |plan| > 0
      modifies `local, `cluster, `localMem, `clusterMem, `log, `seen, `hitch
      ensures Working() && localMem.status == old(localMem).status
      ensures ok ==> Synced() && localMem.volumes != []
      ensures ok ==> forall j | 0 <= j < |localMem.volumes| :: VolumeReady(localMem.volumes[j], Reserved)
      ensures !ok ==> hitch
    {
      hide Good, Tidy, Logged;
      ok := Check();
      if !ok {
        return;
      }
      for i := 0 to |plan|
        invariant ok && Synced() && localMem.status == old(localMem).status && |localMem.volumes| == |plan|
        invariant forall j | 0 <= j < i :: localMem.volumes[j].reservation.reserved
      {
        var reserved := Both(localMem.volumes[i].reservation.reserved, clusterMem.volumes[i].reservation.reserved);
        if !reserved {
          ok := Check();
          if !ok {
            return;
          }
          ok := ReserveVolume(i);
          if !ok {
            return;
          }
        }
      }
    }

    // ------------------------------------------------------- final sync

    /** One transfer and the release of its tools. */
    method Attempt(i: nat) returns (copied: bool, cleaned: bool)
      requires Synced() && i < |localMem.volumes| && seen.work.open == {} && Interrupted(localMem.volumes[i])
      requires PhaseOf(localMem) == FinalSyncing && localMem.volumes[i].reservation.reserved
      requires localMem.volumes[i].sync.attempts > OfflineLog.NewestOf(seen.work, i)
      modifies `log, `seen, `hitch
      ensures Synced() && old(log) < log && (cleaned ==> seen.work.open == {})
      ensures copied && cleaned ==> OfflineLog.CopyComplete(seen.work, i, clusterMem.volumes[i])
      ensures old(hitch) ==> hitch
      ensures !copied || !cleaned ==> hitch
    {
      hide Good, Tidy, Logged;
      var attempt := localMem.volumes[i].sync.attempts;
      assert seen.stored[i] == QualifyVolume(localMem.volumes[i], namespace);
      TidyCopied(seen.work, localMem, i, namespace);
      Note(OfflineLog.Copied(i, attempt));
      copied := Check();
      cleaned := Check();
      if cleaned {
        TidyAfter(seen.work, localMem, OfflineLog.Cleaned(i, attempt), namespace);
        Note(OfflineLog.Cleaned(i, attempt));
        if copied {
          TidyAfter(seen.work, localMem, OfflineLog.Succeeded(i, attempt), namespace);
          Note(OfflineLog.Succeeded(i, attempt));
        }
      }
    }

    /** One attempt; `again` when the next one may follow. */
    method TryCopy(i: nat) returns (ok: bool, again: bool, capacity: bool)
      requires Synced() && PhaseOf(localMem) == FinalSyncing && i < |localMem.volumes|
      requires seen.work.open == {} && !localMem.volumes[i].sync.finalDone
      modifies `local, `cluster, `localMem, `clusterMem, `log, `seen, `hitch
      ensures Working() && localMem.status == old(localMem).status && old(log) <= log
      ensures ok || again ==>
                && Synced() && OnlyAttempts(old(localMem), localMem, i) && seen.work.open == {}
                && localMem.volumes[i].sync.attempts == old(localMem).volumes[i].sync.attempts + 1
      ensures ok ==> OfflineLog.CopyComplete(seen.work, i, clusterMem.volumes[i])
      ensures (again ==> !ok) && (ok ==> !capacity) && (!ok ==> hitch)
    {
      hide Good, Qualify, Tidy, Logged;
      again, capacity := false, false;
      ok := Check();
      if !ok {
        return;
      }
      ok := NextAttempt(i);
      if !ok {
        return;
      }
      var copied, cleaned := Attempt(i);
      if copied && cleaned {
        return;
      }
      ok := Persist();
      if !ok {
        return;
      }
      ok := false;
      capacity := *;
      if capacity || !cleaned {
        return;
      }
      again := Check();
    }

    /**
     The attempt number is durable before the transfer starts, and no transfer starts next
     to an uncleaned one; on success the newest attempt is the one that copied.
     */
    method CopyWithRetry(i: nat) returns (ok: bool, capacity: bool)
      requires Synced() && PhaseOf(localMem) == FinalSyncing && i < |localMem.volumes|
      requires seen.work.open == {} && !localMem.volumes[i].sync.finalDone
      modifies `local, `cluster, `localMem, `clusterMem, `log, `seen, `hitch
      ensures Working() && localMem.status == old(localMem).status && old(log) <= log
      ensures ok ==> Synced() && OnlyAttempts(old(localMem), localMem, i) && seen.work.open == {}
      ensures ok ==>
                && 0 < localMem.volumes[i].sync.attempts - old(localMem).volumes[i].sync.attempts <= retries
                && OfflineLog.CopyComplete(seen.work, i, clusterMem.volumes[i])
      ensures !ok ==> hitch
    {
      hide Good, Qualify, Tidy, Logged;
      RetriesAreSet();
      capacity := false;
      ok := false;
      for retry := 0 to retries
        invariant retry > 0 ==> hitch
        invariant Synced() && OnlyAttempts(old(localMem), localMem, i) && seen.work.open == {} && !ok && old(log) <= log
        invariant localMem.volumes[i].sync.attempts == old(localMem).volumes[i].sync.attempts + retry
      {
        var again;
        ok, again, capacity := TryCopy(i);
        if !again {
          return;
        }
      }
    }

    /** The number of the next attempt is published before the attempt. */
    method NextAttempt(i: nat) returns (ok: bool)
      requires Synced() && PhaseOf(localMem) == FinalSyncing && i < |localMem.volumes|
      requires seen.work.open == {} && !localMem.volumes[i].sync.finalDone
      modifies `local, `cluster, `localMem, `clusterMem, `log, `seen, `hitch
      ensures Working() && OnlySaves() && localMem.status == old(localMem).status
      ensures ok ==> Synced() && OnlyAttempts(old(localMem), localMem, i)
      ensures ok ==>
                && localMem.volumes[i].sync.attempts == old(localMem).volumes[i].sync.attempts + 1
                && localMem.volumes[i].sync.attempts > OfflineLog.NewestOf(seen.work, i)
                && Interrupted(localMem.volumes[i]) && localMem.volumes[i].reservation.reserved
      ensures !ok ==> hitch
    {
      hide Good, Tidy, Logged;
      DoneAt(seen.work, localMem, i, namespace);
      var v, w := localMem.volumes[i], clusterMem.volumes[i];
      var attempts := v.sync.attempts + 1;
      VolumeAt(plan, localMem, i);
      SyncGood(plan, localMem, i, v.sync.(attempts := attempts));
      ok := PublishVolume(i, v.(sync := v.sync.(attempts := attempts)),
                          w.(sync := w.sync.(attempts := w.sync.attempts + 1)));
    }

    method CleanVolume(i: nat) returns (ok: bool)
      requires Synced() && i < |localMem.volumes|
      modifies `log, `seen, `hitch
      ensures Synced() && old(log) <= log && seen.work.open <= old(seen).work.open
      ensures ok ==> i !in seen.work.open
      ensures ok ==>
                log[|old(log)|..] ==
                if Interrupted(localMem.volumes[i]) then [OfflineLog.Cleaned(i, localMem.volumes[i].sync.attempts)] else []
      ensures !ok ==> hitch
    {
      hide Good, Inv, Tidy, Logged;
      var interrupted := Both(localMem.volumes[i].sync.attempts != 0 && !localMem.volumes[i].sync.finalDone,
                              clusterMem.volumes[i].sync.attempts != 0 && !clusterMem.volumes[i].sync.finalDone);
      OpenIsInterrupted(seen.work, localMem, namespace);
      ok := true;
      if interrupted {
        ok := Check();
        if ok {
          CleanTools(i);
        }
      }
    }

    /** Tools of an interrupted sync are released in every phase, for every attempted and unfinished volume. */
    method CleanupInterrupted() returns (ok: bool)
      requires Synced()
      modifies `log, `seen, `hitch
      ensures Synced() && old(log) <= log
      ensures ok ==> seen.work.open == {}
      ensures ok ==> AllCleaned(localMem.volumes, |localMem.volumes|, log[|old(log)|..])
      ensures !ok ==> hitch
    {
      hide Good, Inv, Tidy, Logged, AllCleaned;
      ok := true;
      NoneToClean(localMem.volumes, log[|old(log)|..]);
      for i := 0 to |localMem.volumes|
        invariant ok && Synced() && old(log) <= log
        invariant forall j | 0 <= j < i :: j !in seen.work.open
        invariant AllCleaned(localMem.volumes, i, log[|old(log)|..])
      {
        ghost var before, events := log, log[|old(log)|..];
        ok := CleanVolume(i);
        if !ok {
          return;
        }
        assert log[|old(log)|..] == events + log[|before|..];
        CleanedOneMore(localMem.volumes, i, events, log[|old(log)|..]);
      }
      OpenIsInterrupted(seen.work, localMem, namespace);
      assert seen.work.open == {};
    }

    ghost method CleanTools(i: nat)
      requires Synced() && i < |localMem.volumes|
      modifies `log, `seen
      ensures Synced() && log == old(log) + [OfflineLog.Cleaned(i, localMem.volumes[i].sync.attempts)]
      ensures seen.work.open == old(seen).work.open - {i}
    {
      hide Good, Qualify, Logged;
      TidyAfter(seen.work, localMem, OfflineLog.Cleaned(i, localMem.volumes[i].sync.attempts), namespace);
      Note(OfflineLog.Cleaned(i, localMem.volumes[i].sync.attempts));
    }

    method FinalSync() returns (ok: bool)
      requires Synced()
      modifies `local, `cluster, `localMem, `clusterMem, `log, `seen, `hitch
      ensures Inv() && (ok ==> Synced() && localMem.status.phase == FinalSynced && Recopied(old(localMem), localMem))
      ensures old(localMem).status.reason == CapacityExhausted ==> !ok && log == old(log)
      ensures !ok ==>
                || hitch || PhaseOf(old(localMem)) !in {Reserved, FinalSyncing, FinalSynced}
                || old(localMem).status.reason == CapacityExhausted
    {
      hide Good, Recorded, Tidy, Logged, Recopied, OfflineMove;
      StageMoves();
      var accepted := Both(
        PhaseOf(localMem) in {Reserved, FinalSyncing, FinalSynced} && localMem.status.reason != CapacityExhausted,
        Effective(clusterMem.status) in {Reserved, FinalSyncing, FinalSynced} && clusterMem.status.reason != CapacityExhausted);
      if !accepted {
        return false;
      }
      ok := CleanupInterrupted();
      if !ok {
        return;
      }
      ok := Check();
      if ok {
        ok := SyncVolumes();
      }
    }

    method Restart() returns (ok: bool)
      requires Synced()
      modifies `local, `cluster, `localMem, `clusterMem, `log, `seen, `hitch
      ensures Working() && OnlySaves()
      ensures ok ==> Synced() && localMem.status.phase == FinalSyncing && |localMem.volumes| == |plan|
      ensures ok ==> MarksLeft(old(localMem), localMem)
      ensures !ok ==> hitch || !OfflineMove(PhaseOf(old(localMem)), FinalSyncing)
    {
      hide Good, Tidy, Logged;
      var allowed := Both(OfflineMove(PhaseOf(localMem), FinalSyncing),
                          OfflineMove(Effective(clusterMem.status), FinalSyncing));
      if !allowed {
        return false;
      }
      var previousLocal, previousCluster := localMem, clusterMem;
      RestartGood(plan, localMem);
      TidyRestarted(seen.work, localMem, namespace);
      var finished := Both(localMem.status.phase == FinalSynced, clusterMem.status.phase == FinalSynced);
      if finished {
        localMem := localMem.(volumes := Cleared(localMem.volumes));
        clusterMem := clusterMem.(volumes := ClusterCleared(clusterMem.volumes));
      }
      localMem := localMem.(status := Recorded(localMem.status, FinalSyncing));
      clusterMem := clusterMem.(status := Recorded(clusterMem.status, FinalSyncing));
      assert clusterMem == Qualify(localMem, namespace);
      Covered(plan, localMem);
      ok := Publish(previousLocal, previousCluster);
    }

    method SyncVolumes() returns (ok: bool)
      requires Synced() && seen.work.open == {}
      modifies `local, `cluster, `localMem, `clusterMem, `log, `seen, `hitch
      ensures Inv() && (ok ==> Synced() && localMem.status.phase == FinalSynced && Recopied(old(localMem), localMem))
      ensures !ok ==> hitch || !OfflineMove(PhaseOf(old(localMem)), FinalSyncing)
    {
      hide Good, Recorded, Tidy, Logged, OfflineMove;
      StageMoves();
      ok := Restart();
      if !ok {
        return;
      }
      ghost var started := localMem;
      for i := 0 to |plan|
        invariant ok && Synced() && localMem.status.phase == FinalSyncing && |localMem.volumes| == |plan|
        invariant seen.work.open == {}
        invariant forall j | 0 <= j < i :: localMem.volumes[j].sync.finalDone
        invariant forall j | i <= j < |plan| :: localMem.volumes[j] == started.volumes[j]
        invariant forall j | 0 <= j < i ::
                    started.volumes[j].sync.finalDone || localMem.volumes[j].sync.attempts > started.volumes[j].sync.attempts
      {
        var done := Both(localMem.volumes[i].sync.finalDone, clusterMem.volumes[i].sync.finalDone);
        if !done {
          var capacity;
          ok, capacity := SyncVolume(i);
          if !ok {
            return;
          }
        }
      }
      ok := Finish(FinalSynced);
    }

    method SyncVolume(i: nat) returns (ok: bool, capacity: bool)
      requires Synced() && localMem.status.phase == FinalSyncing && i < |localMem.volumes|
      requires seen.work.open == {} && !localMem.volumes[i].sync.finalDone
      modifies `local, `cluster, `localMem, `clusterMem, `log, `seen, `hitch
      ensures Working()
      ensures ok ==> Synced() && OnlySync(old(localMem), localMem, i) && localMem.volumes[i].sync.finalDone
      ensures ok ==> seen.work.open == {} && localMem.volumes[i].sync.attempts > old(localMem).volumes[i].sync.attempts
      ensures capacity && localMem.status.phase == Failed ==> localMem.status.reason == CapacityExhausted
      ensures !ok ==> hitch
    {
      hide Good, Recorded, Tidy, Logged;
      ok, capacity := CopyWithRetry(i);
      if !ok {
        Fail(capacity);
        return;
      }
      var checksum: bool := *;
      var v, w := localMem.volumes[i], clusterMem.volumes[i];
      DoneAt(seen.work, localMem, i, namespace);
      SyncGood(plan, localMem, i, v.sync.(finalDone := true, checksumVerified := checksum));
      ok := PublishVolume(i, v.(sync := v.sync.(finalDone := true, checksumVerified := checksum)),
                          w.(sync := w.sync.(finalDone := true, checksumVerified := checksum)));
    }

    // ------------------------------------------------------- activation

    /** The switcher's checkpoint is stored as it is by one executor and localized by the other. */
    method PublishActivation(i: nat, a: ClusterActivation) returns (ok: bool)
      requires Synced() && i < |localMem.volumes| == |plan|
      requires SwitcherStep(plan, localMem, i, a, namespace)
      requires OfflineLog.StepsInOrder(a)
      requires (a.activated ==> i in seen.work.switched) && (a.rolledBack ==> i in seen.work.restored)
      modifies `local, `cluster, `localMem, `clusterMem, `log, `seen, `hitch
      ensures Working() && OnlySaves() && localMem.status == old(localMem).status
      ensures |localMem.volumes| == |old(localMem).volumes|
      ensures forall j | 0 <= j < |localMem.volumes| && j != i :: localMem.volumes[j] == old(localMem).volumes[j]
      ensures ok ==>
                && Synced()
                && LocalActivation(a, namespace) == Some(localMem.volumes[i].activation)
                && localMem.volumes[i] == old(localMem).volumes[i].(activation := localMem.volumes[i].activation)
      ensures !ok ==> localMem == old(localMem)
      ensures !ok ==> hitch
    {
      hide Good;
      var localized := LocalActivation(a, namespace);
      ActivationGood(plan, localMem, i, a, namespace);
      DoneAt(seen.work, localMem, i, namespace);
      ok := Check();
      if ok {
        ok := PublishVolume(i, localMem.volumes[i].(activation := localized.value),
                            clusterMem.volumes[i].(activation := a));
      }
    }

    method SwitchVolume(i: nat) returns (ok: bool)
      requires Synced() && PhaseOf(localMem) == Activating && i < |localMem.volumes| == |plan|
      requires forall j | 0 <= j < i :: localMem.volumes[j].activation.activated
      requires !localMem.volumes[i].activation.activated
      modifies `local, `cluster, `localMem, `clusterMem, `log, `seen, `hitch
      ensures Working() && localMem.status == old(localMem).status && |localMem.volumes| == |plan|
      ensures forall j | 0 <= j < |plan| && j != i :: localMem.volumes[j] == old(localMem).volumes[j]
      ensures ok ==> Synced() && localMem.volumes[i].activation.activated
      ensures !ok ==> hitch
    {
      hide Good, Tidy, Logged;
      CallSwitcher(i);
      var found: bool := *;
      if !found {
        ok := SwitchSteps(i);
        if !ok {
          return;
        }
      }
      var uid := ClaimUid();
      if uid == "" {
        return false;
      }
      DoneAt(seen.work, localMem, i, namespace);
      var requested := QualifiedActivation(localMem.volumes[i].activation, namespace);
      ok := PublishActivation(i, requested.(
        temporaryDeleted := true, sourceDeleted := true, destinationReserved := true,
        active := Some(ObjectRef(namespace, plan[i].sourcePVC.name, uid)), activated := true));
    }

    /** The switcher is called for a volume whose data is complete, after its predecessors. */
    ghost method CallSwitcher(i: nat)
      requires Synced() && PhaseOf(localMem) == Activating && i < |localMem.volumes| == |plan|
      requires forall j | 0 <= j < i :: localMem.volumes[j].activation.activated
      requires !localMem.volumes[i].activation.activated
      modifies `log, `seen
      ensures Synced() && seen == old(seen).(work := OfflineLog.WorkAfter(old(seen).work, OfflineLog.Switched(i)))
    {
      hide Good, Tidy, Logged;
      VolumeAt(plan, localMem, i);
      DoneAt(seen.work, localMem, i, namespace);
      TidyAfter(seen.work, localMem, OfflineLog.Switched(i), namespace);
      Note(OfflineLog.Switched(i));
    }

    ghost method CallRestorer(i: nat)
      requires Synced() && i < |localMem.volumes| && !localMem.volumes[i].activation.rolledBack
      requires forall j | i < j < |localMem.volumes| :: localMem.volumes[j].activation.rolledBack
      modifies `log, `seen
      ensures Synced() && seen == old(seen).(work := OfflineLog.WorkAfter(old(seen).work, OfflineLog.Restored(i)))
    {
      hide Good, Tidy, Logged;
      TidyAfter(seen.work, localMem, OfflineLog.Restored(i), namespace);
      Note(OfflineLog.Restored(i));
    }

    method SwitchSteps(i: nat) returns (ok: bool)
      requires Synced() && PhaseOf(localMem) == Activating && i < |localMem.volumes| == |plan|
      requires !localMem.volumes[i].activation.activated
      modifies `local, `cluster, `localMem, `clusterMem, `log, `seen, `hitch
      ensures Working() && OnlySaves() && localMem.status == old(localMem).status && |localMem.volumes| == |plan|
      ensures forall j | 0 <= j < |plan| && j != i :: localMem.volumes[j] == old(localMem).volumes[j]
      ensures ok ==>
                var a := localMem.volumes[i].activation;
                Synced() && !a.activated && a.temporaryDeleted && a.sourceDeleted && a.destinationReserved
      ensures !ok ==> hitch
    {
      hide Good, Tidy, Logged, Inv;
      VolumeAt(plan, localMem, i);
      DoneAt(seen.work, localMem, i, namespace);
      ok := true;
      if !localMem.volumes[i].activation.temporaryDeleted {
        ok := PublishActivation(i, clusterMem.volumes[i].activation.(temporaryDeleted := true));
      }
      if ok && !localMem.volumes[i].activation.sourceDeleted {
        ok := PublishActivation(i, clusterMem.volumes[i].activation.(sourceDeleted := true));
      }
      if ok && !localMem.volumes[i].activation.destinationReserved {
        ok := PublishActivation(i, clusterMem.volumes[i].activation.(destinationReserved := true));
      }
    }

    method Activate() returns (ok: bool)
      requires Synced()
      modifies `local, `cluster, `localMem, `clusterMem, `log, `seen, `hitch
      ensures Inv()
      ensures ok ==> Synced() && localMem.status.phase in {Activated, Completed}
      ensures ok && PhaseOf(old(localMem)) in {FinalSynced, Activating} ==> localMem.status.phase == Activated
      ensures !ok ==> hitch || PhaseOf(old(localMem)) !in {FinalSynced, Activating, Activated, Completed}
    {
      hide Good, Recorded, Tidy, Logged, OfflineMove;
      CutoverMoves();
      ok := Check();
      var phase := PhaseOf(localMem);
      var accepted := Both(phase in {FinalSynced, Activating, Activated, Resuming, Completed},
                           Effective(clusterMem.status) in {FinalSynced, Activating, Activated, Resuming, Completed});
      if !ok || !accepted {
        return false;
      }
      var done := Both(localMem.status.phase in {Activated, Completed}, clusterMem.status.phase in {Activated, Completed});
      if done {
        return true;
      }
      if phase == Completed {
        ok := Transition(Completed);
      } else if phase == Activated {
        ok := Transition(Activated);
      } else {
        ok := ActivateVolumes();
      }
    }

    method ActivateVolumes() returns (ok: bool)
      requires Synced() && PhaseOf(localMem) in {FinalSynced, Activating, Resuming}
      modifies `local, `cluster, `localMem, `clusterMem, `log, `seen, `hitch
      ensures Inv() && (ok ==> Synced() && localMem.status.phase == Activated)
      ensures !ok ==> hitch || PhaseOf(old(localMem)) == Resuming
    {
      hide Good, Recorded, Tidy, Logged, Inv, OfflineMove;
      CutoverMoves();
      ok := Transition(Activating);
      if !ok {
        return;
      }
      ok := SwitchAll();
      if !ok {
        GiveUp();
        return;
      }
      ok := Finish(Activated);
    }

    method SwitchAll() returns (ok: bool)
      requires Synced() && localMem.status.phase == Activating
      modifies `local, `cluster, `localMem, `clusterMem, `log, `seen, `hitch
      ensures Working() && localMem.status.phase == Activating
      ensures ok ==>
                && Synced()
                && forall j | 0 <= j < |localMem.volumes| :: localMem.volumes[j].activation.activated
      ensures !ok ==> hitch
    {
      hide Good, Recorded, Tidy, Logged, Inv;
      Covered(plan, localMem);
      ok := true;
      for i := 0 to |plan|
        invariant ok && Synced() && localMem.status.phase == Activating && |localMem.volumes| == |plan|
        invariant forall j | 0 <= j < i :: localMem.volumes[j].activation.activated
      {
        ok := Check();
        var activated := Both(localMem.volumes[i].activation.activated, clusterMem.volumes[i].activation.activated);
        if ok && !activated {
          ok := SwitchVolume(i);
        }
        if !ok {
          return;
        }
      }
    }

    // ------------------------------------------------ rollback and abort

    method Rollback() returns (ok: bool)
      requires Synced()
      modifies `local, `cluster, `localMem, `clusterMem, `log, `seen, `hitch
      ensures Inv() && (ok ==> Synced() && localMem.status.phase == RolledBack)
      ensures !ok ==> hitch || PhaseOf(old(localMem)) !in {FinalSynced} + CUTOVER_PHASES + ROLLBACK_PHASES
    {
      hide Good, Recorded, Tidy, Logged, Inv;
      ok := Check();
      var accepted := Both(PhaseOf(localMem) in {FinalSynced} + CUTOVER_PHASES + ROLLBACK_PHASES,
                           Effective(clusterMem.status) in {FinalSynced} + CUTOVER_PHASES + ROLLBACK_PHASES);
      if !ok || !accepted {
        return false;
      }
      var done := Both(localMem.status.phase == RolledBack, clusterMem.status.phase == RolledBack);
      if done {
        return true;
      }
      var live := Both(localMem.status.phase in {Completed, Activated}, clusterMem.status.phase in {Completed, Activated});
      if live {
        ok := Check();
        if !ok {
          return;
        }
      }
      ok := BeginRollback();
    }

    method BeginRollback() returns (ok: bool)
      requires Synced() && PhaseOf(localMem) in {FinalSynced} + CUTOVER_PHASES + ROLLBACK_PHASES
      requires localMem.status.phase != RolledBack
      modifies `local, `cluster, `localMem, `clusterMem, `log, `seen, `hitch
      ensures Inv() && (ok ==> Synced() && localMem.status.phase == RolledBack)
      ensures !ok ==> hitch
    {
      hide Good, Recorded, Tidy, Logged, Inv, OfflineMove;
      Covered(plan, localMem);
      TurningBack(PhaseOf(localMem));
      EndedRests(plan, localMem);
      ok := Transition(RollingBack);
      if ok {
        ok := RestoreVolumes();
      }
    }

    method RestoreVolumes() returns (ok: bool)
      requires Synced() && localMem.status.phase == RollingBack
      modifies `local, `cluster, `localMem, `clusterMem, `log, `seen, `hitch
      ensures Inv() && (ok ==> Synced() && localMem.status.phase == RolledBack)
      ensures !ok ==> hitch
    {
      hide Good, Recorded, Tidy, Logged, OfflineMove;
      CutoverMoves();
      Covered(plan, localMem);
      ok := true;
      for i := |plan| downto 0
        invariant ok && Synced() && localMem.status.phase == RollingBack && |localMem.volumes| == |plan|
        invariant forall j | i <= j < |plan| :: localMem.volumes[j].activation.rolledBack
      {
        var restored := Both(localMem.volumes[i].activation.rolledBack, clusterMem.volumes[i].activation.rolledBack);
        if !restored {
          CallRestorer(i);
          DoneAt(seen.work, localMem, i, namespace);
          var uid := ClaimUid();
          ok := uid != "";
          if ok {
            ok := PublishActivation(i, clusterMem.volumes[i].activation.(
              active := Some(ObjectRef(namespace, plan[i].sourcePVC.name, uid)), rolledBack := true));
          }
          if !ok {
            GiveUp();
            return;
          }
        }
      }
      ok := Check();
      if !ok {
        GiveUp();
        return;
      }
      ok := Finish(RolledBack);
    }

    method Abort() returns (ok: bool)
      requires Synced()
      modifies `local, `cluster, `localMem, `clusterMem, `log, `seen, `hitch
      ensures Inv() && (ok ==> Synced() && localMem.status.phase == Aborted)
      ensures !ok ==> hitch || !AbortGate(PhaseOf(old(localMem)))
    {
      hide Good, Recorded, Tidy, Logged, Inv;
      ok := Check();
      var gate := Both(AbortGate(PhaseOf(localMem)), AbortGate(Effective(clusterMem.status)));
      if !ok || !gate {
        return false;
      }
      var done := Both(localMem.status.phase == Aborted, clusterMem.status.phase == Aborted);
      if done {
        return true;
      }
      ok := BeginAbort();
    }

    method BeginAbort() returns (ok: bool)
      requires Synced() && AbortGate(PhaseOf(localMem)) && localMem.status.phase != Aborted
      modifies `local, `cluster, `localMem, `clusterMem, `log, `seen, `hitch
      ensures Inv() && (ok ==> Synced() && localMem.status.phase == Aborted)
      ensures !ok ==> hitch
    {
      hide Good, Recorded, Tidy, Logged, Inv, OfflineMove;
      Covered(plan, localMem);
      TurningBack(PhaseOf(localMem));
      EndedRests(plan, localMem);
      CutoverMoves();
      ok := Transition(Aborting);
      if !ok {
        return;
      }
      ok := CleanupInterrupted();
      if !ok {
        GiveUp();
        return;
      }
      ok := Finish(Aborted);
    }

    // ------------------------------------------------- run and invocations

    /** The driver: forward through every stage that is left, unless the record has ended or turned back. */
    method Run() returns (ok: bool)
      requires Synced()
      modifies `local, `cluster, `localMem, `clusterMem, `log, `seen, `hitch
      ensures Inv() && (ok ==> Synced() && PhaseOf(localMem) == RunEnd(PhaseOf(old(localMem))))
      ensures !ok ==> hitch || old(localMem).status.reason == CapacityExhausted
    {
      hide Good, Recorded, Tidy, Logged, Inv;
      Covered(plan, localMem);
      var ended := Both(PhaseOf(localMem) in TERMINAL_PHASES + {RollingBack, Aborting},
                        Effective(clusterMem.status) in TERMINAL_PHASES + {RollingBack, Aborting});
      if ended {
        ok := RunEnded();
      } else {
        ok := RunForward();
      }
    }

    /** Each stage falls through into the next. */
    method RunForward() returns (ok: bool)
      requires Synced() && OfflinePhase(PhaseOf(localMem))
      requires PhaseOf(localMem) !in TERMINAL_PHASES + {RollingBack, Aborting}
      modifies `local, `cluster, `localMem, `clusterMem, `log, `seen, `hitch
      ensures Inv() && (ok ==> Synced() && PhaseOf(localMem) == Completed)
      ensures !ok ==> hitch || old(localMem).status.reason == CapacityExhausted
    {
      hide Good, Recorded, Tidy, Logged, Inv, OfflineMove;
      ReasonPhase(plan, localMem);
      ok := true;
      var phase := PhaseOf(localMem);
      assert phase == Effective(clusterMem.status);
      if phase in {Planned, Reserving} {
        ok := Reserve();
      }
      if ok && phase in {Planned, Reserving, Reserved, FinalSyncing} {
        ReasonPhase(plan, localMem);
        ok := FinalSync();
      }
      if ok && phase in {Planned, Reserving, Reserved, FinalSyncing, FinalSynced, Activating} {
        ok := Activate();
      }
      if ok {
        ok := Complete();
      }
    }

    method Complete() returns (ok: bool)
      requires Synced() && PhaseOf(localMem) in {Activated, Resuming, Completed}
      modifies `local, `cluster, `localMem, `clusterMem, `log, `seen, `hitch
      ensures Inv() && (ok ==> Synced() && localMem.status.phase == Completed)
      ensures !ok ==> hitch
    {
      hide Good, Recorded, Tidy, Logged, Inv, OfflineMove;
      CutoverMoves();
      ok := Check();
      if ok {
        ok := Finish(Completed);
      } else {
        GiveUp();
      }
    }

    method RunEnded() returns (ok: bool)
      requires Synced() && PhaseOf(localMem) in TERMINAL_PHASES + {RollingBack, Aborting}
      modifies `local, `cluster, `localMem, `clusterMem, `log, `seen, `hitch
      ensures Inv() && (ok ==> Synced() && PhaseOf(localMem) == RunEnd(PhaseOf(old(localMem))))
      ensures !ok ==> hitch
    {
      hide Good, Recorded, Tidy, Logged, OfflineMove;
      CutoverMoves();
      var phase := PhaseOf(localMem);
      if phase in {Completed, RolledBack} {
        ok := Check();
        var resting := Both(localMem.status.phase == phase, clusterMem.status.phase == phase);
        if ok && !resting {
          ok := Transition(phase);
        }
      } else if phase == RollingBack {
        ok := Rollback();
      } else if phase == Aborting {
        ok := Abort();
      } else {
        ok := phase == Aborted;
      }
    }

    method RequestResume() returns (ok: bool)
      requires Synced()
      modifies `local, `cluster, `localMem, `clusterMem, `log, `seen, `hitch
      ensures Inv() && (ok ==> Synced() && localMem.status.phase != Failed && PhaseOf(localMem) == PhaseOf(old(localMem)))
      ensures old(localMem).status.reason == CapacityExhausted ==> !ok && log == old(log)
      ensures !ok ==> hitch || old(localMem).status.reason == CapacityExhausted
    {
      hide Good, Recorded, Tidy, Logged;
      ok := Check();
      var refused := Both(localMem.status.reason == CapacityExhausted, clusterMem.status.reason == CapacityExhausted);
      if !ok || refused {
        return false;
      }
      var failed := Both(localMem.status.phase == Failed, clusterMem.status.phase == Failed);
      if failed {
        ReactivateGood(plan, localMem);
        TidyMove(seen.work, localMem, localMem.(status := Reactivated(localMem.status)), namespace);
        var previousLocal, previousCluster := localMem, clusterMem;
        localMem := localMem.(status := Reactivated(localMem.status));
        clusterMem := clusterMem.(status := Reactivated(clusterMem.status));
        assert clusterMem == Qualify(localMem, namespace);
        ok := Publish(previousLocal, previousCluster);
      }
    }

    method FinalizeDeleted() returns (ok: bool)
      requires Synced()
      modifies `local, `cluster, `localMem, `clusterMem, `log, `seen, `hitch
      ensures Inv() && (ok ==> Synced() && PhaseOf(localMem) == DeletionEnd(PhaseOf(old(localMem))))
      ensures !ok ==> hitch
    {
      hide Good, Recorded, Tidy, Logged;
      ok := Persist();
      if !ok {
        return;
      }
      Covered(plan, localMem);
      var phase := PhaseOf(localMem);
      if phase !in TERMINAL_PHASES {
        ReasonPhase(plan, localMem);
        var converge := Both(DeletionRequiresConvergence(phase), DeletionRequiresConvergence(Effective(clusterMem.status)));
        if converge {
          ok := Run();
        } else {
          ok := Abort();
        }
      }
    }

    /** A command that is not declined, and meets no failure outside the executors, succeeds. */
    method Invoke(command: Command) returns (ok: bool)
      requires Inv()
      modifies this
      ensures Inv()
      ensures !ok ==> hitch || Declines(command, old(local), deleting)
    {
      hide Good, Recorded;
      var requested: bool := *;
      deleting := deleting || requested;
      localMem := local;
      clusterMem := cluster;
      hitch := false;
      if deleting != command.FinalizeDeleted? {
        return false;
      }
      match command
      case Reserve => ok := Reserve();
      case FinalSync => ok := FinalSync();
      case Activate => ok := Activate();
      case Rollback => ok := Rollback();
      case Abort => ok := Abort();
      case Run => ok := Run();
      case RequestResume => ok := RequestResume();
      case FinalizeDeleted => ok := FinalizeDeleted();
    }

    /**
     Every run of commands keeps the cluster record equal to the qualified local
     record, both valid for their own validators, with activation a prefix and
     rollback a suffix of the plan, and every copy in order.
     */
    method Operate(commands: seq<Command>)
      requires Inv()
      modifies this
      ensures Inv() && cluster == Qualify(local, namespace)
      ensures RecordValid(plan, local)
      ensures ClusterRecordValid(plan, cluster, namespace, namespace, namespace)
      ensures Prefix(local.volumes) && Suffix(local.volumes)
      ensures OfflineLog.Disciplined(log)
    {
      for i := 0 to |commands|
        invariant Inv()
      {
        var ok := Invoke(commands[i]);
      }
      GoodIsValid(plan, local);
      ValidatorsAgree(plan, local, namespace);
    }
  }

  lemma FailedStatus(plan: seq<VolumeSpec>, r: Record, reason: Reason)
    requires Good(plan, r) && PhaseOf(r) !in {Aborted, RolledBack}
    requires reason == NoReason || (reason == CapacityExhausted && PhaseOf(r) == FinalSyncing)
    ensures Good(plan, r.(status := Recorded(r.status.(reason := reason), Failed)))
    ensures Effective(Recorded(r.status.(reason := reason), Failed)) == PhaseOf(r)
    ensures Good(plan, r.(status := r.status.(reason := NoReason)))
  {
    hide VolumesGood;
  }

  function NewClusterVolumes(plan: seq<VolumeSpec>): (volumes: seq<ClusterVolume>)
    ensures |volumes| == |plan|
    ensures forall i | 0 <= i < |plan| ::
              volumes[i].reservation == ClusterReservation(plan[i].sourcePVC.name, None, None, "", false)
              && volumes[i].sync == Sync(false, false, 0)
              && volumes[i].activation == ClusterActivation(false, false, false, None, false, false)
  {
    seq(|plan|, i requires 0 <= i < |plan| =>
      ClusterVolume(ClusterReservation(plan[i].sourcePVC.name, None, None, "", false),
                    Sync(false, false, 0), ClusterActivation(false, false, false, None, false, false)))
  }

  /** A checkpoint the cluster validator accepts is localized, and the localized one is good. */
  lemma ReservationGood(plan: seq<VolumeSpec>, r: Record, i: nat, c: ClusterReservation, namespace: string)
    requires Good(plan, r) && PhaseOf(r) == Reserving && i < |r.volumes| == |plan|
    requires !r.volumes[i].reservation.reserved && c.source == r.volumes[i].reservation.source
    requires ClusterReservationValid(plan[i], c, namespace)
    ensures LocalReservation(c, namespace).Some?
    ensures QualifiedReservation(LocalReservation(c, namespace).value, namespace) == c
    ensures Good(plan, With(r, i, r.volumes[i].(reservation := LocalReservation(c, namespace).value)))
  {
    hide Good;
    RefInverts(c.pvc, namespace);
    RefInverts(c.pv, "");
    VolumeAt(plan, r, i);
    CheckpointGood(plan, r, i, r.volumes[i].(reservation := LocalReservation(c, namespace).value));
  }

  /** A sync that was finished starts without marks, an interrupted one from those it had. */
  predicate MarksLeft(r: Record, to: Record) {
    && |to.volumes| == |r.volumes|
    && forall j | 0 <= j < |r.volumes| ::
         && to.volumes[j].sync.attempts == r.volumes[j].sync.attempts
         && (to.volumes[j].sync.finalDone ==> r.volumes[j].sync.finalDone && r.status.phase != FinalSynced)
  }

  /** Every volume was copied again, but those that an interrupted sync had already marked. */
  predicate Recopied(r: Record, to: Record) {
    && |to.volumes| == |r.volumes|
    && forall j | 0 <= j < |r.volumes| ::
         || (r.volumes[j].sync.finalDone && r.status.phase != FinalSynced)
         || to.volumes[j].sync.attempts > r.volumes[j].sync.attempts
  }

  predicate OnlySync(r: Record, to: Record, i: nat) {
    && to.status == r.status && i < |r.volumes| == |to.volumes|
    && (forall j | 0 <= j < |r.volumes| && j != i :: to.volumes[j] == r.volumes[j])
    && to.volumes[i] == r.volumes[i].(sync := to.volumes[i].sync)
  }

  predicate OnlyAttempts(r: Record, to: Record, i: nat) {
    && OnlySync(r, to, i)
    && to.volumes[i].sync == r.volumes[i].sync.(attempts := to.volumes[i].sync.attempts)
  }

  lemma SyncGood(plan: seq<VolumeSpec>, r: Record, i: nat, sync: Sync)
    requires Good(plan, r) && PhaseOf(r) == FinalSyncing && i < |r.volumes|
    requires sync.attempts >= r.volumes[i].sync.attempts
    ensures Good(plan, With(r, i, r.volumes[i].(sync := sync)))
  {
    hide Good;
    VolumeAt(plan, r, i);
    CheckpointGood(plan, r, i, r.volumes[i].(sync := sync));
  }

  function ClusterCleared(volumes: seq<ClusterVolume>): (cleared: seq<ClusterVolume>)
    ensures |cleared| == |volumes|
    ensures forall i | 0 <= i < |volumes| ::
              cleared[i] == volumes[i].(sync := volumes[i].sync.(finalDone := false, checksumVerified := false))
  {
    seq(|volumes|, i requires 0 <= i < |volumes| =>
      volumes[i].(sync := volumes[i].sync.(finalDone := false, checksumVerified := false)))
  }

  /** What the switcher may publish for a volume, in the cluster's form. */
  predicate SwitcherStep(plan: seq<VolumeSpec>, r: Record, i: nat, a: ClusterActivation, namespace: string) {
    && i < |r.volumes| == |plan|
    && ActiveValid(plan[i], a.active, namespace)
    && (a.activated || a.rolledBack ==> a.active.Some?)
    && var b := r.volumes[i].activation;
      || (PhaseOf(r) == Activating && a.rolledBack == b.rolledBack
          && (a.activated == b.activated
              || (a.activated && forall j | 0 <= j < i :: r.volumes[j].activation.activated)))
      || (PhaseOf(r) == RollingBack && a.activated == b.activated
          && (a.rolledBack == b.rolledBack
              || (a.rolledBack && forall j | i < j < |r.volumes| :: r.volumes[j].activation.rolledBack)))
  }

  lemma ActivationGood(plan: seq<VolumeSpec>, r: Record, i: nat, a: ClusterActivation, namespace: string)
    requires Good(plan, r) && SwitcherStep(plan, r, i, a, namespace)
    ensures LocalActivation(a, namespace).Some?
    ensures QualifiedActivation(LocalActivation(a, namespace).value, namespace) == a
    ensures Good(plan, With(r, i, r.volumes[i].(activation := LocalActivation(a, namespace).value)))
  {
    hide Good;
    RefInverts(a.active, namespace);
    VolumeAt(plan, r, i);
    CheckpointGood(plan, r, i, r.volumes[i].(activation := LocalActivation(a, namespace).value));
  }

  lemma ReactivateGood(plan: seq<VolumeSpec>, r: Record)
    requires Good(plan, r) && r.status.phase == Failed
    ensures r.status.resumeFrom !in {Unset, Failed} && Good(plan, r.(status := Reactivated(r.status)))
  {
    hide VolumesGood;
  }
}
