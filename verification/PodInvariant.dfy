/**
 What a record must satisfy, next to what has happened so far, for every later step
 of a pod migration to be acceptable; and the steps that keep it.
 */
module PodInvariant {
  import opened Lifecycle
  import opened History
  import opened Checkpoints
  import opened PodRecord
  import opened PodMonitor

  predicate PlanOk(plan: Plan) {
    plan.volumes != [] && PlanValid(plan.volumes, true)
  }

  predicate Shape(plan: Plan, r: Record) {
    && InPlanOrder(plan, r)
    && PodLifecycleValid(r.status)
    && PodPhase(PhaseOf(r))
    && r.passes >= 0
    && HistoryKnows(r.status)
    && (r.status.reason != NoReason ==> r.status.phase == Failed)
    && (PhaseOf(r) == Aborted ==> r.status.phase == Aborted)
  }

  /** A copy may be left behind only in the phase that made it, unfinished, or while aborting. */
  predicate DirtyGood(mode: Mode, phase: Phase, s: Sync) {
    match mode
    case Warm => phase == Aborting || (phase == WarmCopying && !s.warmDone)
    case Final => phase == Aborting || (phase == FinalSyncing && !s.finalDone)
  }

  predicate VolumeGood(m: Monitor, phase: Phase, i: nat, v: Volume) {
    && (v.activation.activated ==> phase in CUTOVER_PHASES + ROLLBACK_PHASES)
    && (v.activation.rolledBack ==> phase in ROLLBACK_PHASES)
    && CopiedOf(m, i) <= v.sync.attempts
    && (i in m.dirty ==>
          v.sync.attempts == CopiedOf(m, i) && v.sync.attempts > 0 && DirtyGood(m.dirty[i], phase, v.sync))
    && (v.sync.finalDone ==>
          && phase !in PREPARATION_PHASES + {Pausing, Paused}
          && (phase in {FinalSyncing, FinalSynced, Activating} ==> i in m.synced))
    && WasDone(m, i, v)
  }

  predicate VolumesGood(m: Monitor, phase: Phase, volumes: seq<Volume>) {
    && (forall i: nat | i < |volumes| :: VolumeGood(m, phase, i, volumes[i]))
    && (forall i <- m.dirty :: i < |volumes|)
    && (forall i <- m.copied :: i < |volumes|)
  }

  /** The abort still knows, or has provably forgotten, that it found the workload held. */
  predicate Remembers(s: Status) {
    && LastOther(s.history, {Failed, Aborting}) in HELD_PHASES + {Unset}
    && s.resumeFrom in HELD_PHASES + {Aborting}
  }

  predicate HeldGood(m: Monitor, s: Status) {
    var phase := Effective(s);
    && (m.paused ==>
          && phase !in PREPARATION_PHASES + {Completed, RolledBack}
          && (phase == Aborted ==> m.settling || m.forgotten || Aborted in m.seen)
          && (phase == Aborting ==> Remembers(s)))
    && (phase in {Paused, FinalSyncing, FinalSynced, Activating, Activated} ==> m.paused)
    && (phase == Paused ==> Paused in m.seen || m.verified)
  }

  predicate SeenGood(m: Monitor, phase: Phase) {
    && (phase in {FinalSyncing, FinalSynced} ==> Paused in m.seen)
    && (phase in CUTOVER_PHASES + ROLLBACK_PHASES ==> Paused in m.seen && FinalSynced in m.seen)
    && (m.seen !! CUTOVER_PHASES + ROLLBACK_PHASES || phase in CUTOVER_PHASES + ROLLBACK_PHASES)
    && (m.seen !! ROLLBACK_PHASES || phase in ROLLBACK_PHASES)
    && (m.seen !! ABORT_PHASES || phase in ABORT_PHASES)
  }

  /** The phase this rollback was requested from, as far as the capped history knows. */
  function RollbackOrigin(s: Status): Phase {
    LastOther(s.history, {Failed, RollingBack})
  }

  /** A rollback known to come from before the resume still finds the workload paused. */
  predicate RollbackGood(m: Monitor, r: Record) {
    PhaseOf(r) == RollingBack && !AllRolledBack(r) ==>
      m.paused || RollbackOrigin(r.status) in {Unset, Resuming, Completed}
  }

  /** The complete warm copies a record implies: one per counted pass, and one for a mark of the pass under way. */
  function Due(phase: Phase, passes: int, v: Volume): int {
    passes + if phase in {Planned, Reserving, Reserved, WarmCopying} && v.sync.warmDone then 1 else 0
  }

  predicate WarmGood(m: Monitor, phase: Phase, passes: int, volumes: seq<Volume>) {
    && (volumes == [] ==> passes == 0)
    && (forall i: nat | i < |volumes| :: WarmedOf(m, i) >= Due(phase, passes, volumes[i]))
  }

  /** What the calls made so far owe to the record. */
  predicate CallsGood(m: Monitor, r: Record) {
    && (m.work.shared ==> MayShare(PhaseOf(r)))
    && RollbackGood(m, r)
    && WarmGood(m, PhaseOf(r), r.passes, r.volumes)
  }

  predicate Good(plan: Plan, m: Monitor, r: Record) {
    CoreGood(plan, m, r) && CallsGood(m, r)
  }

  predicate CoreGood(plan: Plan, m: Monitor, r: Record) {
    && Shape(plan, r)
    && VolumesGood(m, PhaseOf(r), r.volumes)
    && ActivatedPrefix(r) && RolledBackSuffix(r)
    && HeldGood(m, r.status)
    && SeenGood(m, PhaseOf(r))
    && CapacityHeld(m, r)
  }

  // ---------------------------------------------------------------- saves

  lemma DirtyPhase(m: Monitor, phase: Phase, volumes: seq<Volume>, i: nat)
    requires VolumesGood(m, phase, volumes) && i in m.dirty
    ensures phase in {WarmCopying, FinalSyncing, Aborting}
  {
    assert VolumeGood(m, phase, i, volumes[i]);
  }

  lemma CleanPhase(m: Monitor, phase: Phase, volumes: seq<Volume>)
    requires VolumesGood(m, phase, volumes) && phase !in {WarmCopying, FinalSyncing, Aborting}
    ensures m.dirty == map[]
  {
    if m.dirty != map[] {
      var i :| i in m.dirty;
      DirtyPhase(m, phase, volumes, i);
      assert false;
    }
  }

  lemma RecordIsPerformed(m: Monitor, r: Record)
    requires VolumesGood(m, PhaseOf(r), r.volumes) && CallsGood(m, r)
    ensures Performed(m, r)
  {
    forall i: nat | i < |r.volumes| ensures WasDone(m, i, r.volumes[i]) && WarmedOf(m, i) >= r.passes {
      assert VolumeGood(m, PhaseOf(r), i, r.volumes[i]);
      assert WarmedOf(m, i) >= Due(PhaseOf(r), r.passes, r.volumes[i]);
    }
  }

  lemma GoodMayBeSaved(plan: Plan, m: Monitor, r: Record)
    requires PlanOk(plan) && Good(plan, m, r)
    ensures Allowed(plan, m, Saved(r))
  {
    hide Performed, WarmGood, RollbackGood;
    RecordIsPerformed(m, r);
    PlanOrderIsValid(plan, r);
    if PhaseOf(r) in TERMINAL_PHASES {
      CleanPhase(m, PhaseOf(r), r.volumes);
    }
  }

  lemma VolumesGoodFor(m: Monitor, n: Monitor, phase: Phase, volumes: seq<Volume>)
    requires VolumesGood(m, phase, volumes)
    requires n.copied == m.copied && n.dirty == m.dirty && n.synced == m.synced
    requires n.work == m.work
    ensures VolumesGood(n, phase, volumes)
  {
    forall i: nat | i < |volumes| ensures VolumeGood(n, phase, i, volumes[i]) {
      assert VolumeGood(m, phase, i, volumes[i]);
    }
  }

  lemma CallsGoodFor(m: Monitor, n: Monitor, r: Record)
    requires CallsGood(m, r)
    requires n.paused == m.paused && n.work == m.work
    ensures CallsGood(n, r)
  {
    forall i: nat | i < |r.volumes| ensures WarmedOf(n, i) >= Due(PhaseOf(r), r.passes, r.volumes[i]) {
      assert WarmedOf(m, i) >= Due(PhaseOf(r), r.passes, r.volumes[i]);
    }
  }

  lemma GoodOnceSaved(plan: Plan, m: Monitor, r: Record)
    requires Good(plan, m, r)
    ensures Good(plan, After(m, Saved(r)), r)
    ensures After(m, Saved(r)).exhausted ==> HeldBack(m, r)
  {
    hide InPlanOrder, HistoryKnows, VolumesGood, CallsGood;
    VolumesGoodFor(m, After(m, Saved(r)), PhaseOf(r), r.volumes);
    CallsGoodFor(m, After(m, Saved(r)), r);
  }

  /** A save that was reported as failed keeps the record put back good unless it crossed a point of no return. */
  lemma GoodAfterSave(plan: Plan, m: Monitor, saved: Record, r: Record)
    requires Good(plan, m, r) && Good(plan, m, saved)
    requires PhaseOf(saved) == PhaseOf(r) || PhaseOf(saved) !in CUTOVER_PHASES + ROLLBACK_PHASES + ABORT_PHASES
    ensures Good(plan, After(After(m, Saved(saved)), TakenBack(saved)), r)
  {
    hide Shape, VolumesGood, CallsGood, After;
    TakenBackFields(m, saved);
    VolumesGoodFor(m, After(After(m, Saved(saved)), TakenBack(saved)), PhaseOf(r), r.volumes);
    CallsGoodFor(m, After(After(m, Saved(saved)), TakenBack(saved)), r);
  }

  lemma TakenBackFields(m: Monitor, saved: Record)
    ensures
      var n := After(After(m, Saved(saved)), TakenBack(saved));
      && n == m.(durable := n.durable, seen := n.seen, forgotten := n.forgotten,
                 exhausted := n.exhausted, excused := n.excused)
      && n.seen == m.seen + {PhaseOf(saved)} && (m.forgotten ==> n.forgotten)
      && (Barred(n) ==> Barred(m))
  {
    hide Forgets, PhaseOf;
  }

  // ---------------------------------------------------------- transitions

  predicate VolumeReady(v: Volume, next: Phase) {
    && (next == Reserved ==> v.reservation.reserved)
    && (next == WarmCopied ==> v.sync.warmDone)
    && (next == FinalSynced ==> v.sync.finalDone)
    && (next == Activated ==> v.activation.activated)
    && (next == RolledBack ==> v.activation.rolledBack)
  }

  /** What a caller must have established before it records `next`. */
  predicate Ready(m: Monitor, r: Record, next: Phase) {
    && (next !in {Failed, PhaseOf(r)} ==>
          && (next == Reserved ==> r.volumes != [])
          && (forall i | 0 <= i < |r.volumes| :: VolumeReady(r.volumes[i], next))
          && (next == Paused ==> m.paused && m.verified)
          && (next in {Completed, RolledBack} ==> !m.paused)
          && (next == Aborted ==> m.dirty == map[] && (m.paused ==> m.settling || m.forgotten))
          && (next in {Paused, Aborted} ==> !m.work.shared))
    && (Barred(m) ==> next in ABORT_PHASES + {Failed})
    && (next == Failed ==> PhaseOf(r) != Aborted)
  }

  lemma MoveHeld(m: Monitor, s: Status, next: Phase)
    requires HeldGood(m, s) && HistoryKnows(s) && PodPhase(Effective(s)) && PodMove(Effective(s), next)
    requires next != Effective(s) ==>
               && (next == Paused ==> m.paused && m.verified)
               && (next in {Completed, RolledBack} ==> !m.paused)
               && (next == Aborted && m.paused ==> m.settling || m.forgotten)
    ensures HeldGood(m, Recorded(s, next))
  {
    if s.phase != next {
      LastOtherOfRecorded(s.history, next, {Failed, Aborting});
      LastOtherWidens(s.history, Aborting);
    }
  }

  lemma MoveVolumeValid(spec: VolumeSpec, phase: Phase, next: Phase, v: Volume)
    requires VolumeValid(spec, v, phase) && next in PodEdges(phase) && VolumeReady(v, next)
    ensures VolumeValid(spec, v, next)
  {
    hide LocalCheckpointValid;
  }

  lemma MoveVolumeGood(m: Monitor, phase: Phase, next: Phase, i: nat, v: Volume)
    requires VolumeGood(m, phase, i, v) && next in PodEdges(phase) && VolumeReady(v, next)
    requires next == Aborted ==> m.dirty == map[]
    ensures VolumeGood(m, next, i, v)
  {
    hide DirtyGood, WasDone;
    if i in m.dirty {
      MoveDirty(m, phase, next, i, v);
    }
  }

  lemma MoveDirty(m: Monitor, phase: Phase, next: Phase, i: nat, v: Volume)
    requires VolumeGood(m, phase, i, v) && i in m.dirty
    requires next in PodEdges(phase) && VolumeReady(v, next) && next != Aborted
    ensures DirtyGood(m.dirty[i], next, v.sync)
  {
  }

  lemma MoveVolumes(plan: Plan, m: Monitor, r: Record, next: Phase)
    requires InPlanOrder(plan, r) && VolumesGood(m, PhaseOf(r), r.volumes)
    requires next in PodEdges(PhaseOf(r)) && next != PhaseOf(r) && next != Failed && Ready(m, r, next)
    ensures InPlanOrder(plan, r.(status := Recorded(r.status, next)))
    ensures VolumesGood(m, next, r.volumes)
  {
    hide VolumeValid, VolumeGood, VolumeReady;
    var to := r.(status := Recorded(r.status, next));
    assert PhaseOf(to) == next;
    if r.volumes != [] {
      forall i: nat | i < |r.volumes|
        ensures VolumeValid(plan.volumes[i], r.volumes[i], next) && VolumeGood(m, next, i, r.volumes[i])
      {
        MoveVolumeValid(plan.volumes[i], PhaseOf(r), next, r.volumes[i]);
        MoveVolumeGood(m, PhaseOf(r), next, i, r.volumes[i]);
      }
    }
  }

  lemma MoveStatus(s: Status, next: Phase)
    requires PodLifecycleValid(s) && PodPhase(Effective(s)) && PodMove(Effective(s), next) && HistoryKnows(s)
    requires s.reason != NoReason ==> s.phase == Failed
    ensures
      var t := Recorded(s, next);
      && PodLifecycleValid(t) && PodPhase(Effective(t)) && HistoryKnows(t)
      && (t.reason != NoReason ==> t.phase == Failed)
      && Effective(t) == if next == Failed then Effective(s) else next
  {
    hide HistoryKnows;
    KnowsAfter(s, next);
  }

  lemma SamePhase(plan: Plan, r: Record, to: Record)
    requires InPlanOrder(plan, r) && to.volumes == r.volumes && PhaseOf(to) == PhaseOf(r)
    ensures InPlanOrder(plan, to)
  {
  }

  /** What the history says of a rollback once a transition to it, or a failure of it, is recorded. */
  lemma OriginAfter(s: Status, next: Phase)
    requires HistoryKnows(s) && PodPhase(Effective(s)) && next != Unset
    requires Effective(Recorded(s, next)) == RollingBack
    ensures RollbackOrigin(Recorded(s, next)) in
            {Unset, if Effective(s) == RollingBack then RollbackOrigin(s) else Effective(s)}
  {
    if s.phase != next {
      LastOtherOfRecorded(s.history, next, {Failed, RollingBack});
      LastOtherWidens(s.history, RollingBack);
    }
  }

  lemma MoveCalls(m: Monitor, r: Record, next: Phase)
    requires CallsGood(m, r) && HeldGood(m, r.status) && HistoryKnows(r.status) && PodPhase(PhaseOf(r))
    requires PodMove(PhaseOf(r), next) && !(PhaseOf(r) == WarmCopied && next == WarmCopying)
    requires next in {Paused, Aborted} && next != PhaseOf(r) ==> !m.work.shared
    ensures CallsGood(m, r.(status := Recorded(r.status, next)))
  {
    hide HistoryKnows, RollbackOrigin, WarmGood, Recorded;
    var to := r.(status := Recorded(r.status, next));
    RecordedPhase(r.status, next);
    if PhaseOf(to) == RollingBack {
      OriginAfter(r.status, next);
    }
    MoveWarm(m, PhaseOf(r), PhaseOf(to), r.passes, r.volumes);
  }

  lemma RecordedPhase(s: Status, next: Phase)
    ensures Effective(Recorded(s, next)) == if next == Failed then Effective(s) else next
  {
  }

  lemma MoveWarm(m: Monitor, phase: Phase, next: Phase, passes: int, volumes: seq<Volume>)
    requires WarmGood(m, phase, passes, volumes) && (next == phase || next in PodEdges(phase))
    requires !(phase == WarmCopied && next == WarmCopying)
    ensures WarmGood(m, next, passes, volumes)
  {
    forall i: nat | i < |volumes| ensures WarmedOf(m, i) >= Due(next, passes, volumes[i]) {
      assert WarmedOf(m, i) >= Due(phase, passes, volumes[i]);
    }
  }

  lemma MoveGood(plan: Plan, m: Monitor, r: Record, next: Phase)
    requires Good(plan, m, r) && PhaseOf(r) in m.seen
    requires PodMove(PhaseOf(r), next) && Ready(m, r, next)
    requires !(PhaseOf(r) == WarmCopied && next == WarmCopying)
    ensures Good(plan, m, r.(status := Recorded(r.status, next)))
  {
    hide CallsGood, VolumesGood, InPlanOrder, HeldGood, SeenGood, HistoryKnows, PodLifecycleValid, VolumeReady, PodMove;
    MoveCore(plan, m, r, next);
    MoveCalls(m, r, next);
  }

  lemma MoveCore(plan: Plan, m: Monitor, r: Record, next: Phase)
    requires CoreGood(plan, m, r) && PhaseOf(r) in m.seen
    requires PodMove(PhaseOf(r), next) && Ready(m, r, next)
    ensures CoreGood(plan, m, r.(status := Recorded(r.status, next)))
  {
    hide InPlanOrder, VolumesGood, HistoryKnows, PodLifecycleValid, HeldGood, SeenGood, CapacityHeld;
    MoveStatus(r.status, next);
    MoveHeld(m, r.status, next);
    MoveRest(plan, m, r, next);
    if next !in {Failed, PhaseOf(r)} {
      MoveVolumes(plan, m, r, next);
    } else {
      SamePhase(plan, r, r.(status := Recorded(r.status, next)));
    }
  }

  lemma MoveRest(plan: Plan, m: Monitor, r: Record, next: Phase)
    requires Shape(plan, r) && SeenGood(m, PhaseOf(r)) && CapacityHeld(m, r) && PhaseOf(r) in m.seen
    requires PodMove(PhaseOf(r), next) && (Barred(m) ==> next in ABORT_PHASES + {Failed})
    ensures
      var to := r.(status := Recorded(r.status, next));
      SeenGood(m, PhaseOf(to)) && CapacityHeld(m, to)
  {
    hide InPlanOrder, HistoryKnows;
  }

  /** Failing keeps the effective phase, whatever the reason recorded with it. */
  lemma FailGood(plan: Plan, m: Monitor, r: Record, reason: Reason)
    requires Good(plan, m, r) && PhaseOf(r) != Aborted
    requires Barred(m) && PhaseOf(r) !in ABORT_PHASES ==> m.deleting || reason == CapacityExhausted
    requires reason == NoReason || (reason == CapacityExhausted && PhaseOf(r) in {FinalSyncing, WarmCopying})
    ensures Good(plan, m, r.(status := Recorded(r.status.(reason := reason), Failed)))
  {
    hide VolumesGood, SeenGood, CallsGood;
    var s := r.status.(reason := reason);
    KnowsAfter(s, Failed);
    MoveHeld(m, s, Failed);
    assert CallsGood(m, r.(status := s)) by {
      OnlyReason(m, r, reason);
    }
    MoveCalls(m, r.(status := s), Failed);
  }

  lemma OnlyReason(m: Monitor, r: Record, reason: Reason)
    requires CallsGood(m, r)
    ensures CallsGood(m, r.(status := r.status.(reason := reason)))
  {
  }

  /** A cancelled failure keeps the whole status but the reason. */
  lemma CancelGood(plan: Plan, m: Monitor, r: Record)
    requires Good(plan, m, r)
    requires Barred(m) && PhaseOf(r) !in ABORT_PHASES ==> m.deleting
    ensures Good(plan, m, r.(status := r.status.(reason := NoReason)))
  {
    hide VolumesGood, SeenGood, CallsGood;
    OnlyReason(m, r, NoReason);
  }

  lemma ReactivateGood(plan: Plan, m: Monitor, r: Record)
    requires Good(plan, m, r) && r.status.phase == Failed
    requires Barred(m) ==> PhaseOf(r) in ABORT_PHASES
    ensures r.status.resumeFrom != Unset && Good(plan, m, r.(status := Reactivated(r.status)))
  {
    hide VolumesGood, SeenGood, CallsGood;
    KnowsAfterReopen(r.status);
    LastOtherOfRecorded(r.status.history, r.status.resumeFrom, {Failed, Aborting});
    ReopenCalls(m, r);
  }

  lemma ReopenCalls(m: Monitor, r: Record)
    requires CallsGood(m, r) && r.status.phase == Failed && r.status.resumeFrom != Unset && r.status.resumeFrom != Failed
    ensures CallsGood(m, r.(status := Reactivated(r.status)))
  {
    hide WarmGood;
    LastOtherOfRecorded(r.status.history, r.status.resumeFrom, {Failed, RollingBack});
  }

  // -------------------------------------------------------------- volumes

  /** A checkpoint of one volume; activation goes up in plan order and rollback comes down. */
  predicate Fits(plan: Plan, m: Monitor, r: Record, i: nat, v: Volume) {
    && i < |r.volumes| == |plan.volumes|
    && v.reservation.source == r.volumes[i].reservation.source
    && VolumeValid(plan.volumes[i], v, PhaseOf(r))
    && VolumeGood(m, PhaseOf(r), i, v)
    && WarmedOf(m, i) >= Due(PhaseOf(r), r.passes, v)
    && (v.activation.activated <==>
          || r.volumes[i].activation.activated
          || (v.activation.activated && forall j | 0 <= j < i :: r.volumes[j].activation.activated))
    && (v.activation.rolledBack <==>
          || r.volumes[i].activation.rolledBack
          || (v.activation.rolledBack && forall j | i < j < |r.volumes| :: r.volumes[j].activation.rolledBack))
  }

  function With(r: Record, i: nat, v: Volume): Record
    requires i < |r.volumes|
  {
    r.(volumes := r.volumes[i := v])
  }

  lemma CheckpointGood(plan: Plan, m: Monitor, r: Record, i: nat, v: Volume)
    requires Good(plan, m, r) && Fits(plan, m, r, i, v)
    ensures Good(plan, m, With(r, i, v))
  {
    hide HistoryKnows, HeldGood, SeenGood, CallsGood;
    var to := With(r, i, v);
    CheckpointVolumes(m, PhaseOf(r), r.volumes, i, v);
    CheckpointCalls(m, r, i, v);
    assert ActivatedPrefix(to);
    assert RolledBackSuffix(to);
  }

  lemma CheckpointCalls(m: Monitor, r: Record, i: nat, v: Volume)
    requires CallsGood(m, r) && i < |r.volumes| && WarmedOf(m, i) >= Due(PhaseOf(r), r.passes, v)
    requires r.volumes[i].activation.rolledBack ==> v.activation.rolledBack
    ensures CallsGood(m, With(r, i, v))
  {
    var to := With(r, i, v);
    assert PhaseOf(to) == PhaseOf(r);
    if AllRolledBack(r) {
      forall j | 0 <= j < |to.volumes| ensures to.volumes[j].activation.rolledBack {
        assert r.volumes[j].activation.rolledBack;
      }
    }
    forall j: nat | j < |to.volumes| ensures WarmedOf(m, j) >= Due(PhaseOf(r), r.passes, to.volumes[j]) {
      assert WarmedOf(m, j) >= Due(PhaseOf(r), r.passes, r.volumes[j]);
    }
  }

  lemma CheckpointVolumes(m: Monitor, phase: Phase, volumes: seq<Volume>, i: nat, v: Volume)
    requires VolumesGood(m, phase, volumes) && i < |volumes| && VolumeGood(m, phase, i, v)
    ensures VolumesGood(m, phase, volumes[i := v])
  {
  }

  function FreshVolumes(plan: seq<VolumeSpec>): (volumes: seq<Volume>)
    ensures |volumes| == |plan| && forall i | 0 <= i < |plan| :: volumes[i] == Fresh(plan[i])
  {
    seq(|plan|, i requires 0 <= i < |plan| => Fresh(plan[i]))
  }

  lemma FreshGood(plan: Plan, m: Monitor, r: Record)
    requires Good(plan, m, r) && r.volumes == []
    ensures Good(plan, m, r.(volumes := FreshVolumes(plan.volumes)))
  {
    hide HistoryKnows, HeldGood, SeenGood;
    var to := r.(volumes := FreshVolumes(plan.volumes));
    assert m.copied == map[] && m.dirty == map[];
    assert VolumesGood(m, PhaseOf(r), to.volumes);
  }

  /** Clearing or setting the warm marks moves no other part of the invariant. */
  lemma ClearedCore(plan: Plan, m: Monitor, r: Record, volumes: seq<Volume>)
    requires CoreGood(plan, m, r) && |volumes| == |r.volumes| == |plan.volumes| && m.dirty == map[]
    requires forall i | 0 <= i < |volumes| ::
               volumes[i] == r.volumes[i].(sync := volumes[i].sync)
               && volumes[i].sync.attempts == r.volumes[i].sync.attempts
               && (volumes[i].sync.finalDone ==> r.volumes[i].sync.finalDone)
    requires PhaseOf(r) == WarmCopied ==> forall v <- volumes :: v.sync.warmDone
    requires PhaseOf(r) == FinalSynced ==> forall v <- volumes :: v.sync.finalDone
    requires PhaseOf(r) !in CUTOVER_PHASES
    ensures CoreGood(plan, m, r.(volumes := volumes))
  {
    hide HistoryKnows, HeldGood, SeenGood;
    var to := r.(volumes := volumes);
    forall i: nat | i < |volumes| ensures VolumeGood(m, PhaseOf(r), i, volumes[i]) {
      assert VolumeGood(m, PhaseOf(r), i, r.volumes[i]);
    }
    assert InPlanOrder(plan, to) by {
      forall i | 0 <= i < |volumes| ensures VolumeValid(plan.volumes[i], volumes[i], PhaseOf(r)) {
        assert VolumeValid(plan.volumes[i], r.volumes[i], PhaseOf(r));
        assert volumes[i] in volumes;
      }
    }
  }

  // --------------------------------------------------------------- events

  /** When an event other than a save may happen next to a good record. */
  predicate EventFits(e: Event, r: Record) {
    match e
    case Loaded(_, _) => false
    case Saved(_) => false
    case PauseCalled => PhaseOf(r) in {Pausing, RollingBack}
    case ResumeCalled(_) =>
      PhaseOf(r) in {Resuming, RollingBack, Aborting} && (PhaseOf(r) == RollingBack ==> AllRolledBack(r))
    case MountsShared => MayShare(PhaseOf(r))
    case CopyCalled(i, mode, attempt) =>
      && i < |r.volumes| && attempt == r.volumes[i].sync.attempts && attempt > 0
      && PhaseOf(r) == CopyPhase(mode)
      && !(if mode == Warm then r.volumes[i].sync.warmDone else r.volumes[i].sync.finalDone)
    case _ => true
  }

  lemma EventVolume(m: Monitor, e: Event, r: Record, i: nat)
    requires EventFits(e, r) && i < |r.volumes| && VolumeGood(m, PhaseOf(r), i, r.volumes[i])
    ensures VolumeGood(After(m, e), PhaseOf(r), i, r.volumes[i])
  {
  }

  lemma EventVolumes(m: Monitor, e: Event, r: Record)
    requires EventFits(e, r) && VolumesGood(m, PhaseOf(r), r.volumes)
    ensures VolumesGood(After(m, e), PhaseOf(r), r.volumes)
  {
    hide VolumeGood;
    forall i: nat | i < |r.volumes| ensures VolumeGood(After(m, e), PhaseOf(r), i, r.volumes[i]) {
      EventVolume(m, e, r, i);
    }
  }

  lemma EventGood(plan: Plan, m: Monitor, e: Event, r: Record)
    requires Good(plan, m, r) && EventFits(e, r)
    ensures Good(plan, After(m, e), r)
  {
    hide VolumesGood, InPlanOrder, HistoryKnows, CallsGood;
    EventVolumes(m, e, r);
    EventCalls(m, e, r);
  }

  lemma EventCalls(m: Monitor, e: Event, r: Record)
    requires CallsGood(m, r) && EventFits(e, r)
    ensures CallsGood(After(m, e), r)
  {
    hide RollbackOrigin;
    forall i: nat | i < |r.volumes| ensures WarmedOf(After(m, e), i) >= Due(PhaseOf(r), r.passes, r.volumes[i]) {
      assert WarmedOf(m, i) >= Due(PhaseOf(r), r.passes, r.volumes[i]);
    }
  }

  /** What an invocation starts from: whatever was durable, its excuses and observations gone. */
  lemma LoadGood(plan: Plan, m: Monitor, r: Record, deleting: bool)
    requires Good(plan, m, r) && PhaseOf(r) in m.seen && (m.exhausted ==> HeldBack(m, r))
    ensures
      var n := After(m, Loaded(r, deleting));
      Good(plan, n, r) && (n.exhausted ==> HeldBack(n, r))
  {
    hide VolumesGood, InPlanOrder, HistoryKnows, CallsGood;
    VolumesGoodFor(m, After(m, Loaded(r, deleting)), PhaseOf(r), r.volumes);
    CallsGoodFor(m, After(m, Loaded(r, deleting)), r);
  }

  // ---------------------------------------------------------------- facts

  lemma Covered(plan: Plan, m: Monitor, r: Record)
    requires Good(plan, m, r)
    ensures PodPhase(PhaseOf(r))
    ensures r.volumes == [] || |r.volumes| == |plan.volumes|
    ensures PhaseOf(r) !in {Planned, Reserving, Aborting, Aborted} ==> |r.volumes| == |plan.volumes|
    ensures PhaseOf(r) !in {WarmCopying, FinalSyncing, Aborting} ==> m.dirty == map[]
    ensures forall i <- m.dirty :: i < |r.volumes|
  {
    hide CoreGood, CallsGood;
    CoreCovered(plan, m, r);
  }

  lemma CoreCovered(plan: Plan, m: Monitor, r: Record)
    requires CoreGood(plan, m, r)
    ensures PodPhase(PhaseOf(r))
    ensures r.volumes == [] || |r.volumes| == |plan.volumes|
    ensures PhaseOf(r) !in {Planned, Reserving, Aborting, Aborted} ==> |r.volumes| == |plan.volumes|
    ensures PhaseOf(r) !in {WarmCopying, FinalSyncing, Aborting} ==> m.dirty == map[]
    ensures forall i <- m.dirty :: i < |r.volumes|
  {
    hide InPlanOrder, HistoryKnows, HeldGood, SeenGood;
    if PhaseOf(r) !in {WarmCopying, FinalSyncing, Aborting} {
      CleanPhase(m, PhaseOf(r), r.volumes);
    }
    assert InPlanOrder(plan, r);
    Lengths(plan, r);
  }

  lemma Lengths(plan: Plan, r: Record)
    requires InPlanOrder(plan, r)
    ensures r.volumes == [] || |r.volumes| == |plan.volumes|
    ensures PhaseOf(r) !in {Planned, Reserving, Aborting, Aborted} ==> |r.volumes| == |plan.volumes|
  {
  }

  /** Outside an abort and a deletion, no capacity failure stands for a record that passed the copy-retry gate. */
  lemma Unbarred(plan: Plan, m: Monitor, r: Record)
    requires Good(plan, m, r) && !m.deleting && PhaseOf(r) !in ABORT_PHASES
    requires r.status.reason != CapacityExhausted
    ensures !Barred(m)
  {
  }

  /** A capacity failure can only stand in the phases that copy, or be aborted. */
  lemma BarredPhase(plan: Plan, m: Monitor, r: Record)
    requires Good(plan, m, r)
    ensures Barred(m) ==> PhaseOf(r) in ABORT_PHASES + {WarmCopying, FinalSyncing}
  {
  }

  lemma VolumeAt(plan: Plan, m: Monitor, r: Record, i: nat)
    requires Good(plan, m, r) && i < |r.volumes|
    ensures |r.volumes| == |plan.volumes|
    ensures r.volumes[i].reservation.source == plan.volumes[i].sourcePVC.name
    ensures VolumeValid(plan.volumes[i], r.volumes[i], PhaseOf(r))
    ensures VolumeGood(m, PhaseOf(r), i, r.volumes[i])
  {
  }

  lemma NotBarred(plan: Plan, m: Monitor, r: Record)
    requires Good(plan, m, r) && PhaseOf(r) !in ABORT_PHASES + {WarmCopying, FinalSyncing}
    ensures !Barred(m)
  {
  }

  lemma PassesAreDue(plan: Plan, m: Monitor, r: Record, i: nat)
    requires Good(plan, m, r) && i < |r.volumes|
    ensures WarmedOf(m, i) >= r.passes
  {
    hide CoreGood, RollbackGood;
    DueAt(m, r, i);
  }

  lemma ReservationFits(plan: Plan, m: Monitor, r: Record, i: nat, c: Reservation)
    requires Good(plan, m, r) && PhaseOf(r) == Reserving && i < |r.volumes| && !r.volumes[i].reservation.reserved
    requires c.source == r.volumes[i].reservation.source && |r.volumes| == |plan.volumes|
    requires ReservationValid(plan.volumes[i], c) && (i, c) in m.work.returned
    ensures Good(plan, m, With(r, i, r.volumes[i].(reservation := c)))
  {
    hide CallsGood;
    VolumeAt(plan, m, r, i);
    DueAt(m, r, i);
    CheckpointGood(plan, m, r, i, r.volumes[i].(reservation := c));
  }

  lemma DueAt(m: Monitor, r: Record, i: nat)
    requires CallsGood(m, r) && i < |r.volumes|
    ensures WarmedOf(m, i) >= Due(PhaseOf(r), r.passes, r.volumes[i])
  {
  }

  // ----------------------------------------------------------------- copies

  predicate Done(s: Sync, mode: Mode) {
    if mode == Warm then s.warmDone else s.finalDone
  }

  /** A new attempt number fits while no earlier copy of the volume is left behind. */
  lemma AttemptFits(plan: Plan, m: Monitor, r: Record, i: nat)
    requires Good(plan, m, r) && PhaseOf(r) in {WarmCopying, FinalSyncing} && i < |r.volumes| && i !in m.dirty
    ensures
      var v := r.volumes[i];
      && v.reservation.reserved && v.sync.attempts >= 0 && CopiedOf(m, i) <= v.sync.attempts
      && Good(plan, m, With(r, i, v.(sync := v.sync.(attempts := v.sync.attempts + 1))))
  {
    hide InPlanOrder, HistoryKnows, HeldGood, SeenGood, CallsGood;
    VolumeAt(plan, m, r, i);
    DueAt(m, r, i);
    var v := r.volumes[i];
    var w := v.(sync := v.sync.(attempts := v.sync.attempts + 1));
    assert Fits(plan, m, r, i, w);
    CheckpointGood(plan, m, r, i, w);
  }

  lemma WarmDoneFits(plan: Plan, m: Monitor, r: Record, i: nat)
    requires Good(plan, m, r) && PhaseOf(r) == WarmCopying && i < |r.volumes| && m.dirty == map[]
    requires WarmedOf(m, i) > r.passes
    ensures Good(plan, m, With(r, i, r.volumes[i].(sync := r.volumes[i].sync.(warmDone := true))))
  {
    hide InPlanOrder, HistoryKnows, HeldGood, SeenGood, CallsGood;
    VolumeAt(plan, m, r, i);
    CheckpointGood(plan, m, r, i, r.volumes[i].(sync := r.volumes[i].sync.(warmDone := true)));
  }

  lemma FinalDoneFits(plan: Plan, m: Monitor, r: Record, i: nat, verified: bool)
    requires Good(plan, m, r) && PhaseOf(r) == FinalSyncing && i < |r.volumes|
    requires m.dirty == map[] && i in m.synced
    ensures Good(plan, m, With(r, i, r.volumes[i].(
              sync := r.volumes[i].sync.(finalDone := true, checksumVerified := verified))))
  {
    hide InPlanOrder, HistoryKnows, HeldGood, SeenGood, CallsGood;
    VolumeAt(plan, m, r, i);
    DueAt(m, r, i);
    CheckpointGood(plan, m, r, i, r.volumes[i].(
      sync := r.volumes[i].sync.(finalDone := true, checksumVerified := verified)));
  }

  function ClearedSync(s: Sync, mode: Mode): Sync {
    if mode == Warm then s.(warmDone := false) else s.(finalDone := false, checksumVerified := false)
  }

  function Cleared(volumes: seq<Volume>, mode: Mode): (cleared: seq<Volume>)
    ensures |cleared| == |volumes|
    ensures forall i | 0 <= i < |volumes| ::
              cleared[i] == volumes[i].(sync := ClearedSync(volumes[i].sync, mode))
  {
    seq(|volumes|, i requires 0 <= i < |volumes| => volumes[i].(sync := ClearedSync(volumes[i].sync, mode)))
  }

  /** The next pass starts from cleared marks when the last one was finished, and from the marks so far when it was not. */
  function Restarted(r: Record, mode: Mode): Record {
    var finished := PhaseOf(r) == (if mode == Warm then WarmCopied else FinalSynced);
    Record(
      Recorded(r.status, CopyPhase(mode)),
      r.passes,
      if finished then Cleared(r.volumes, mode) else r.volumes)
  }

  lemma RestartGood(plan: Plan, m: Monitor, r: Record, mode: Mode)
    requires Good(plan, m, r) && PhaseOf(r) in m.seen && !Barred(m) && m.dirty == map[]
    requires PodMove(PhaseOf(r), CopyPhase(mode))
    ensures Good(plan, m, Restarted(r, mode)) && PhaseOf(Restarted(r, mode)) == CopyPhase(mode)
  {
    hide CoreGood, PodMove, CallsGood;
    var next := CopyPhase(mode);
    MoveCore(plan, m, r, next);
    var started := r.(status := Recorded(r.status, next));
    var to := Restarted(r, mode);
    if to.volumes != r.volumes {
      CoreCovered(plan, m, started);
      ClearedCore(plan, m, started, to.volumes);
    } else {
      assert to == started;
    }
    RestartCalls(plan, m, r, mode);
  }

  lemma RestartCalls(plan: Plan, m: Monitor, r: Record, mode: Mode)
    requires Good(plan, m, r) && PodMove(PhaseOf(r), CopyPhase(mode))
    ensures CallsGood(m, Restarted(r, mode))
  {
    hide VolumesGood, InPlanOrder, SeenGood;
    var to := Restarted(r, mode);
    assert PhaseOf(to) == CopyPhase(mode);
    forall i: nat | i < |to.volumes| ensures WarmedOf(m, i) >= Due(PhaseOf(to), to.passes, to.volumes[i]) {
      DueAt(m, r, i);
    }
  }

  function PassDone(r: Record): Record {
    Record(Recorded(r.status, WarmCopied), r.passes + 1, r.volumes)
  }

  /** A pass that marked every volume may be counted, together with the phase that says so. */
  lemma PassGood(plan: Plan, m: Monitor, r: Record)
    requires Good(plan, m, r) && PhaseOf(r) in m.seen && !Barred(m)
    requires PhaseOf(r) == WarmCopying && r.volumes != []
    requires forall j | 0 <= j < |r.volumes| :: r.volumes[j].sync.warmDone
    ensures Good(plan, m, PassDone(r)) && PhaseOf(PassDone(r)) == WarmCopied
  {
    hide VolumesGood, HistoryKnows, HeldGood, SeenGood, CallsGood, Recorded;
    var moved := r.(status := Recorded(r.status, WarmCopied));
    MoveCore(plan, m, r, WarmCopied);
    RecordedPhase(r.status, WarmCopied);
    SamePhase(plan, moved, PassDone(r));
    PassCalls(m, r);
  }

  lemma PassCalls(m: Monitor, r: Record)
    requires CallsGood(m, r) && PhaseOf(r) == WarmCopying && r.volumes != []
    requires forall j | 0 <= j < |r.volumes| :: r.volumes[j].sync.warmDone
    ensures CallsGood(m, PassDone(r))
  {
    var to := PassDone(r);
    assert PhaseOf(to) == WarmCopied;
    forall i: nat | i < |to.volumes| ensures WarmedOf(m, i) >= Due(WarmCopied, to.passes, to.volumes[i]) {
      DueAt(m, r, i);
    }
  }

  /** Cleaning every attempted, unfinished volume of the interrupted phase leaves no copy behind. */
  lemma InterruptedAreListed(plan: Plan, m: Monitor, r: Record, i: nat)
    requires Good(plan, m, r) && i in m.dirty
    ensures i < |r.volumes| && r.volumes[i].sync.attempts == CopiedOf(m, i) && r.volumes[i].sync.attempts != 0
    ensures DirtyGood(m.dirty[i], PhaseOf(r), r.volumes[i].sync)
  {
    hide InPlanOrder, HistoryKnows, HeldGood, SeenGood;
    assert VolumeGood(m, PhaseOf(r), i, r.volumes[i]);
  }

  // ------------------------------------------------------------ activation

  /** What the switcher may publish: forward in plan order while activating, backward while rolling back. */
  predicate ActivationStep(plan: Plan, r: Record, i: nat, a: Activation) {
    && i < |r.volumes| == |plan.volumes|
    && (a.active.Some? ==> a.active.value.name == plan.volumes[i].sourcePVC.name && a.active.value.uid != "")
    && (a.activated || a.rolledBack ==> a.active.Some?)
    && var b := r.volumes[i].activation;
      || (PhaseOf(r) == Activating && a.rolledBack == b.rolledBack && (b.activated ==> a.activated)
          && (a.activated ==> forall j | 0 <= j < i :: r.volumes[j].activation.activated))
      || (PhaseOf(r) == RollingBack && a.activated == b.activated && (b.rolledBack ==> a.rolledBack)
          && (a.rolledBack ==> forall j | i < j < |r.volumes| :: r.volumes[j].activation.rolledBack))
  }

  lemma ActivationFits(plan: Plan, m: Monitor, r: Record, i: nat, a: Activation)
    requires Good(plan, m, r) && ActivationStep(plan, r, i, a)
    requires (a.activated ==> i in m.work.switched) && (a.rolledBack ==> i in m.work.restored) && StepsInOrder(a)
    ensures Good(plan, m, With(r, i, r.volumes[i].(activation := a)))
  {
    hide InPlanOrder, HistoryKnows, HeldGood, SeenGood, CallsGood;
    VolumeAt(plan, m, r, i);
    DueAt(m, r, i);
    var w := r.volumes[i].(activation := a);
    assert VolumeGood(m, PhaseOf(r), i, w);
    assert Fits(plan, m, r, i, w) by {
      ActivationKeepsOrder(r, i, a);
    }
    CheckpointGood(plan, m, r, i, w);
  }

  lemma ActivationKeepsOrder(r: Record, i: nat, a: Activation)
    requires i < |r.volumes| && ActivatedPrefix(r) && RolledBackSuffix(r)
    requires r.volumes[i].activation.rolledBack ==> a.rolledBack
    ensures r.volumes[i].activation.activated ==> forall j | 0 <= j < i :: r.volumes[j].activation.activated
    ensures r.volumes[i].activation.rolledBack ==> forall j | i < j < |r.volumes| :: r.volumes[j].activation.rolledBack
  {
  }

  lemma SyncingIsPaused(plan: Plan, m: Monitor, r: Record)
    requires Good(plan, m, r)
    ensures PhaseOf(r) == FinalSyncing ==> m.paused
  {
    hide InPlanOrder, HistoryKnows, VolumesGood, SeenGood;
  }

  /** Past the pause no source volume is shared any more. */
  lemma NotShared(plan: Plan, m: Monitor, r: Record)
    requires Good(plan, m, r) && !MayShare(PhaseOf(r))
    ensures !m.work.shared
  {
    hide CoreGood, RollbackGood, WarmGood;
  }

  /** A rollback that the record does not send to pause finds the workload paused, as far as the history knows. */
  lemma RollbackIsHeld(plan: Plan, m: Monitor, r: Record)
    requires Good(plan, m, r) && PhaseOf(r) == RollingBack && !AllRolledBack(r) && !NeedsPause(r.status)
    ensures m.paused || !RollbackOriginKept(r.status)
  {
    hide InPlanOrder, VolumesGood, SeenGood, WarmGood, HeldGood;
    OriginDecides(r.status);
  }

  /** The two scans of the history agree on where a rollback came from. */
  lemma OriginDecides(s: Status)
    requires HistoryKnows(s) && Effective(s) == RollingBack
    ensures NeedsPause(s) <==> RollbackOrigin(s) in {Resuming, Completed}
    ensures RollbackOriginKept(s) <==> RollbackOrigin(s) != Unset
  {
    LastOtherIsUnset(s.history, {Failed, RollingBack});
    LastOtherWidens(s.history, RollingBack);
    if LastOther(s.history, {Failed}) == RollingBack {
      BeforeIsLastOther(s.history, RollingBack);
    } else {
      BeforeIsUnset(s.history, RollingBack);
    }
  }

  /** Recording the rollback, or taking it up again, leaves the decision to pause or loses it. */
  lemma PauseDecisionKept(plan: Plan, m: Monitor, r: Record)
    requires Good(plan, m, r) && PodMove(PhaseOf(r), RollingBack)
    ensures
      var t := Recorded(r.status, RollingBack);
      && (NeedsPause(t) ==> NeedsPause(r.status))
      && (NeedsPause(r.status) ==> NeedsPause(t) || !RollbackOriginKept(t))
  {
    hide InPlanOrder, VolumesGood, SeenGood, CallsGood, HeldGood, RollbackOrigin, HistoryKnows;
    var s := r.status;
    KnowsAfter(s, RollingBack);
    OriginAfter(s, RollingBack);
    OriginDecides(Recorded(s, RollingBack));
    if Effective(s) == RollingBack {
      OriginDecides(s);
    }
  }

  /** A volume about to be switched was copied in full since the pause, which still holds. */
  lemma SwitchIsCovered(plan: Plan, m: Monitor, r: Record, i: nat)
    requires Good(plan, m, r) && PhaseOf(r) == Activating && i < |r.volumes|
    ensures m.paused && i in m.synced
  {
    hide InPlanOrder, HistoryKnows, SeenGood;
    VolumeAt(plan, m, r, i);
  }

  // ------------------------------------------------------------ decisions

  /** Recording the abort, or taking it up again, leaves the decision to resume or loses it. */
  lemma ResumeDecisionKept(plan: Plan, m: Monitor, r: Record)
    requires Good(plan, m, r) && AbortGate(PhaseOf(r)) && PhaseOf(r) != Aborted && NeedsResume(r.status)
    ensures
      var t := Recorded(r.status, Aborting);
      NeedsResume(t) || !AbortOriginKept(t)
  {
    hide InPlanOrder, VolumesGood, SeenGood, CallsGood, HeldGood;
    var s := r.status;
    LastOtherWidens(s.history, Aborting);
    if LastOther(s.history, {Failed}) == Aborting {
      BeforeIsLastOther(s.history, Aborting);
    } else if Effective(s) == Aborting {
      BeforeIsUnset(s.history, Aborting);
    }
    if s.phase != Aborting {
      var t := Recorded(s, Aborting);
      KnowsAfter(s, Aborting);
      LastOtherOfRecorded(s.history, Aborting, {Failed, Aborting});
      LastOtherIsUnset(t.history, {Failed, Aborting});
    }
  }

  /** An abort that leaves a paused workload alone has durably forgotten where it came from, or already ended. */
  lemma SilentAbortForgot(plan: Plan, m: Monitor, r: Record)
    requires Good(plan, m, r) && m.paused && !NeedsResume(r.status) && AbortGate(PhaseOf(r))
    ensures if PhaseOf(r) == Aborted then m.settling || m.forgotten || Aborted in m.seen else Forgets(r)
  {
    hide InPlanOrder, VolumesGood, SeenGood;
    LastOtherIsUnset(r.status.history, {Failed, Aborting});
  }
}
