/**
 The durable record of a pod migration and its validator.
 */
module PodRecord {
  import opened Lifecycle
  import opened Checkpoints

  datatype Sync = Sync(warmDone: bool, finalDone: bool, checksumVerified: bool, attempts: int)

  datatype Volume = Volume(reservation: Reservation, sync: Sync, activation: Activation)

  datatype Plan = Plan(volumes: seq<VolumeSpec>, precopyPasses: nat)

  datatype Record = Record(status: Status, passes: int, volumes: seq<Volume>)

  function PhaseOf(r: Record): Lifecycle.Phase {
    Effective(r.status)
  }

  function Fresh(spec: VolumeSpec): Volume {
    Volume(Unreserved(spec.sourcePVC.name), Sync(false, false, false, 0), NO_ACTIVATION)
  }

  predicate VolumeValid(spec: VolumeSpec, v: Volume, phase: Lifecycle.Phase) {
    && LocalCheckpointValid(spec, v.reservation, v.activation, v.sync.attempts)
    && VolumePhaseValid(v.reservation.reserved, v.sync.finalDone,
                        v.activation.activated, v.activation.rolledBack, phase)
    && (phase == WarmCopied ==> v.sync.warmDone)
  }

  /** Every checkpoint names a planned volume, none twice, and there are as many as were planned. */
  predicate CheckpointsValid(plan: seq<VolumeSpec>, volumes: seq<Volume>, phase: Lifecycle.Phase) {
    || (volumes == [] && UncoveredAllowed(phase))
    || (&& |volumes| == |plan|
        && (forall i, j | 0 <= i < j < |volumes| ::
              volumes[i].reservation.source != volumes[j].reservation.source)
        && (forall v <- volumes :: KnownAndValid(plan, v, phase)))
  }

  predicate KnownAndValid(plan: seq<VolumeSpec>, v: Volume, phase: Lifecycle.Phase) {
    exists spec <- plan :: spec.sourcePVC.name == v.reservation.source && VolumeValid(spec, v, phase)
  }

  method ValidateCheckpoints(plan: seq<VolumeSpec>, byName: map<string, VolumeSpec>,
                             volumes: seq<Volume>, phase: Lifecycle.Phase)
    returns (ok: bool)
    requires DistinctSources(plan) && Indexes(byName, plan)
    ensures ok <==> CheckpointsValid(plan, volumes, phase)
  {
    hide VolumeValid;
    if volumes == [] && UncoveredAllowed(phase) {
      return true;
    }
    if |volumes| != |plan| {
      return false;
    }
    var seen: set<string> := {};
    for i := 0 to |volumes|
      invariant seen == set j | 0 <= j < i :: volumes[j].reservation.source
      invariant forall j, k | 0 <= j < k < i :: volumes[j].reservation.source != volumes[k].reservation.source
      invariant forall j | 0 <= j < i :: KnownAndValid(plan, volumes[j], phase)
    {
      var v := volumes[i];
      var name := v.reservation.source;
      if name !in byName || name in seen {
        assert v in volumes;
        return false;
      }
      var spec := byName[name];
      if !VolumeValid(spec, v, phase) {
        assert v in volumes;
        assert forall other <- plan :: other.sourcePVC.name == name ==> other == spec;
        return false;
      }
      assert spec in plan;
      seen := seen + {name};
    }
    return true;
  }

  predicate RecordValid(plan: Plan, r: Record) {
    && PodLifecycleValid(r.status)
    && r.passes >= 0
    && plan.volumes != []
    && PlanValid(plan.volumes, true)
    && r.status.phase != Unset
    && CheckpointsValid(plan.volumes, r.volumes, PhaseOf(r))
  }

  ghost function RecordedNames(volumes: seq<Volume>): (names: seq<string>)
    ensures |names| == |volumes| && forall i | 0 <= i < |volumes| :: names[i] == volumes[i].reservation.source
  {
    seq(|volumes|, i requires 0 <= i < |volumes| => volumes[i].reservation.source)
  }

  lemma RecordedNamesAreKnown(plan: seq<VolumeSpec>, volumes: seq<Volume>, phase: Lifecycle.Phase)
    requires forall v <- volumes :: KnownAndValid(plan, v, phase)
    ensures forall name <- RecordedNames(volumes) :: name in PlannedNames(plan)
  {
    forall i | 0 <= i < |volumes| ensures RecordedNames(volumes)[i] in PlannedNames(plan) {
      assert KnownAndValid(plan, volumes[i], phase);
      var spec :| spec in plan && spec.sourcePVC.name == volumes[i].reservation.source;
      var k :| 0 <= k < |plan| && plan[k] == spec;
      assert PlannedNames(plan)[k] == volumes[i].reservation.source;
    }
  }

  /** A valid record with checkpoints has exactly one, itself valid, for every planned volume. */
  lemma ValidRecordCoversThePlan(plan: Plan, r: Record, k: nat) returns (i: nat)
    requires RecordValid(plan, r) && r.volumes != [] && k < |plan.volumes|
    ensures i < |r.volumes| && r.volumes[i].reservation.source == plan.volumes[k].sourcePVC.name
    ensures VolumeValid(plan.volumes[k], r.volumes[i], PhaseOf(r))
    ensures forall j | 0 <= j < |r.volumes| && j != i ::
              r.volumes[j].reservation.source != plan.volumes[k].sourcePVC.name
  {
    var planned := PlannedNames(plan.volumes);
    var recorded := RecordedNames(r.volumes);
    RecordedNamesAreKnown(plan.volumes, r.volumes, PhaseOf(r));
    CoverageIsExact(planned, recorded);
    assert planned[k] in planned;
    i :| 0 <= i < |recorded| && recorded[i] == planned[k];
    assert r.volumes[i] in r.volumes;
    assert KnownAndValid(plan.volumes, r.volumes[i], PhaseOf(r));
    var spec :| spec in plan.volumes && spec.sourcePVC.name == recorded[i]
                && VolumeValid(spec, r.volumes[i], PhaseOf(r));
    var at :| 0 <= at < |plan.volumes| && plan.volumes[at] == spec;
    assert at == k;
  }

  // ------------------------------------------------------------- plan order

  /** The executors create the checkpoints in plan order and never reorder them. */
  predicate InPlanOrder(plan: Plan, r: Record) {
    || (r.volumes == [] && UncoveredAllowed(PhaseOf(r)))
    || (&& |r.volumes| == |plan.volumes|
        && forall i | 0 <= i < |r.volumes| ::
             && r.volumes[i].reservation.source == plan.volumes[i].sourcePVC.name
             && VolumeValid(plan.volumes[i], r.volumes[i], PhaseOf(r)))
  }

  lemma PlanOrderIsValid(plan: Plan, r: Record)
    requires DistinctSources(plan.volumes) && InPlanOrder(plan, r)
    ensures CheckpointsValid(plan.volumes, r.volumes, PhaseOf(r))
  {
    if r.volumes != [] {
      forall v <- r.volumes ensures KnownAndValid(plan.volumes, v, PhaseOf(r)) {
        var i :| 0 <= i < |r.volumes| && r.volumes[i] == v;
        assert plan.volumes[i] in plan.volumes;
      }
    }
  }

  /** The position a source name is found at; names are looked up, not positions, in the executors. */
  function IndexOf(volumes: seq<Volume>, name: string): nat {
    if volumes == [] then 0
    else if volumes[0].reservation.source == name then 0
    else 1 + IndexOf(volumes[1..], name)
  }

  lemma {:induction false} LookupFindsPlanPosition(plan: Plan, r: Record, i: nat)
    requires DistinctSources(plan.volumes) && InPlanOrder(plan, r) && i < |r.volumes|
    ensures IndexOf(r.volumes, plan.volumes[i].sourcePVC.name) == i
  {
    LookupFrom(plan.volumes, r.volumes, i);
  }

  lemma {:induction false} LookupFrom(plan: seq<VolumeSpec>, volumes: seq<Volume>, i: nat)
    requires DistinctSources(plan) && |plan| == |volumes| && i < |plan|
    requires forall k | 0 <= k < |plan| :: volumes[k].reservation.source == plan[k].sourcePVC.name
    ensures IndexOf(volumes, plan[i].sourcePVC.name) == i
  {
    if i > 0 {
      LookupFrom(plan[1..], volumes[1..], i - 1);
    }
  }
}
