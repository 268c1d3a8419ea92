/**
 Handing the storage of a completed reservation over to a copy: the copy starts from
 the reservation's checkpoints and must pass the copy's own, differently written,
 validator.
 */
module Handoff {
  import opened Lifecycle
  import opened Checkpoints
  import opened OfflineRecords

  datatype UnusedPolicy = DefaultUnused | KeepUnused | DeleteUnused | UnknownUnused

  predicate UnusedPolicyValid(p: UnusedPolicy) {
    p != UnknownUnused
  }

  datatype Request = Request(sourcePVC: LocalRef, sourcePV: Option<LocalRef>, destinationPVC: Option<LocalRef>)

  /** The fields a handoff looks at; `placement` stands for all others, which are only compared. */
  datatype TransferSpec = TransferSpec(
    source: string,
    destination: string,
    requests: seq<Request>,
    sourceNode: string,
    strategies: seq<string>,
    verifyChecksum: bool,
    deleteExtraneous: bool,
    policy: UnusedPolicy,
    placement: string)

  datatype CopySpec = CopySpec(transfer: TransferSpec, online: bool)

  /** `settings` stands for what a handoff carries over unread: session namespace, target node, tool image, usage check. */
  datatype ReservationPlan = ReservationPlan(
    source: string, destination: string, volumes: seq<VolumeSpec>,
    sourceNode: string, strategies: seq<string>, policy: UnusedPolicy, settings: string)

  datatype ReservationObject = ReservationObject(
    name: string, deleting: bool, spec: TransferSpec, status: Status,
    plan: Option<ReservationPlan>, volumes: seq<ClusterReservation>)

  datatype CopyPlan = CopyPlan(
    source: string, destination: string, volumes: seq<VolumeSpec>,
    sourceNode: string, strategies: seq<string>, verifyChecksum: bool, deleteExtraneous: bool,
    policy: UnusedPolicy, settings: string, online: bool)

  datatype CopyVolume = CopyVolume(reservation: ClusterReservation, warmDone: bool, attempts: int)

  datatype CopyObject = CopyObject(
    name: string, deleting: bool, spec: CopySpec, status: Status,
    plan: Option<CopyPlan>, sourceNode: string, volumes: seq<CopyVolume>)

  datatype Outcome =
    | InvalidReservation | NotReady | DifferentInput | BadStrategies | InvalidCopy
    | Copied(copy: CopyObject)

  // -------------------------------------------------------- the reservation

  predicate RefMatches(request: LocalRef, resolved: LocalRef) {
    request.name == resolved.name && (request.uid == "" || request.uid == resolved.uid)
  }

  predicate RequestMet(request: Request, v: VolumeSpec) {
    && RefMatches(request.sourcePVC, v.sourcePVC)
    && (request.sourcePV.Some? ==> RefMatches(request.sourcePV.value, v.sourcePV))
    && (request.destinationPVC.Some? ==> RefMatches(request.destinationPVC.value, v.destinationPVC))
  }

  predicate RequestsMet(requests: seq<Request>, plan: seq<VolumeSpec>) {
    forall request <- requests :: exists v <- plan :: RequestMet(request, v)
  }

  predicate ReservationLifecycleValid(s: Status) {
    && s.phase in {Unset, Planned, Reserving, Reserved, Aborting, Aborted, Failed}
    && s.resumeFrom in {Unset, Planned, Reserving, Reserved, Aborting}
    && (s.phase == Failed ==> s.resumeFrom != Unset)
    && s.reason == NoReason
  }

  predicate CheckpointFits(plan: seq<VolumeSpec>, c: ClusterReservation, destination: string, phase: Phase) {
    && (exists v <- plan :: v.sourcePVC.name == c.source && ClusterReservationValid(v, c, destination))
    && (phase == Reserved ==> c.reserved)
  }

  predicate ReservationCheckpointsValid(plan: seq<VolumeSpec>, volumes: seq<ClusterReservation>,
                                        destination: string, phase: Phase) {
    || (volumes == [] && phase != Reserved)
    || (&& |volumes| == |plan|
        && (forall i, j | 0 <= i < j < |volumes| :: volumes[i].source != volumes[j].source)
        && (forall i | 0 <= i < |volumes| :: CheckpointFits(plan, volumes[i], destination, phase)))
  }

  predicate ReservationValid(r: ReservationObject) {
    && r.name != ""
    && ReservationLifecycleValid(r.status)
    && match r.plan
       case None =>
         r.volumes == [] && Effective(r.status) in {Unset, Planned, Aborted}
       case Some(plan) =>
         && plan.volumes != [] && r.status.phase != Unset
         && plan.source != "" && plan.destination != ""
         && (!r.deleting ==>
               plan.source == r.spec.source && plan.destination == r.spec.destination && UnusedPolicyValid(r.spec.policy))
         && UnusedPolicyValid(plan.policy)
         && PlanValid(plan.volumes, plan.source == plan.destination)
         && (!r.deleting ==> RequestsMet(r.spec.requests, plan.volumes))
         && ReservationCheckpointsValid(plan.volumes, r.volumes, plan.destination, Effective(r.status))
  }

  // --------------------------------------------------------------- the copy

  predicate CopyLifecycleValid(s: Status) {
    && s.phase in {Unset, Planned, Reserving, Reserved, WarmCopying, WarmCopied, Aborting, Aborted, Failed}
    && s.resumeFrom in {Unset, Planned, Reserving, Reserved, WarmCopying, WarmCopied, Aborting, Aborted, Failed}
    && (s.phase == Failed ==> s.resumeFrom !in {Unset, Failed})
    && (s.reason != NoReason ==> s.phase == Failed && s.reason == CapacityExhausted)
  }

  predicate CopyVolumeValid(v: VolumeSpec, c: CopyVolume, destination: string, phase: Phase) {
    && ClusterReservationValid(v, c.reservation, destination)
    && (phase in {Reserved, WarmCopying, WarmCopied} ==> c.reservation.reserved)
    && c.attempts >= 0 && (c.attempts > 0 ==> c.reservation.reserved)
    && (c.warmDone ==> c.reservation.reserved)
    && (phase == WarmCopied ==> c.warmDone)
  }

  /** Written from the plan's side: every planned volume finds its checkpoint. */
  predicate CopyCheckpointsValid(plan: seq<VolumeSpec>, destination: string, volumes: seq<CopyVolume>, phase: Phase) {
    || (volumes == [] && phase !in {Reserved, WarmCopying, WarmCopied})
    || (&& |volumes| == |plan|
        && (forall i, j | 0 <= i < j < |volumes| :: volumes[i].reservation.source != volumes[j].reservation.source)
        && (forall k | 0 <= k < |plan| :: Found(plan[k], volumes, destination, phase)))
  }

  predicate Found(v: VolumeSpec, volumes: seq<CopyVolume>, destination: string, phase: Phase) {
    exists i | 0 <= i < |volumes| ::
      volumes[i].reservation.source == v.sourcePVC.name && CopyVolumeValid(v, volumes[i], destination, phase)
  }

  predicate CopyValid(c: CopyObject) {
    && c.name != ""
    && CopyLifecycleValid(c.status)
    && match c.plan
       case None =>
         c.volumes == [] && c.sourceNode == "" && Effective(c.status) in {Unset, Planned, Aborted}
       case Some(plan) =>
         && c.status.phase != Unset && plan.volumes != [] && plan.source != "" && plan.destination != ""
         && UnusedPolicyValid(plan.policy)
         && (!c.deleting ==>
               && plan.source == c.spec.transfer.source && plan.destination == c.spec.transfer.destination
               && plan.online == c.spec.online && UnusedPolicyValid(c.spec.transfer.policy))
         && PlanValid(plan.volumes, plan.source == plan.destination)
         && (!c.deleting ==> RequestsMet(c.spec.transfer.requests, plan.volumes))
         && (c.sourceNode != "" && plan.sourceNode != "" ==> c.sourceNode == plan.sourceNode)
         && CopyCheckpointsValid(plan.volumes, plan.destination, c.volumes, Effective(c.status))
  }

  method IndexBySource(volumes: seq<CopyVolume>) returns (distinct: bool, indexes: map<string, nat>)
    ensures distinct <==>
              forall j, k | 0 <= j < k < |volumes| :: volumes[j].reservation.source != volumes[k].reservation.source
    ensures forall name <- indexes :: indexes[name] < |volumes| && volumes[indexes[name]].reservation.source == name
    ensures forall j | 0 <= j < |volumes| :: volumes[j].reservation.source in indexes
  {
    indexes := map[];
    distinct := true;
    for i := 0 to |volumes|
      invariant forall name <- indexes :: indexes[name] < i && volumes[indexes[name]].reservation.source == name
      invariant forall j | 0 <= j < i :: volumes[j].reservation.source in indexes
      invariant distinct <==> forall j, k | 0 <= j < k < i :: volumes[j].reservation.source != volumes[k].reservation.source
    {
      distinct := distinct && volumes[i].reservation.source !in indexes;
      indexes := indexes[volumes[i].reservation.source := i];
    }
  }

  /** The copy's loop: an index by source name, then one lookup per planned volume. */
  method ValidateCopyCheckpoints(plan: seq<VolumeSpec>, destination: string, volumes: seq<CopyVolume>, phase: Phase)
    returns (ok: bool)
    ensures ok <==> CopyCheckpointsValid(plan, destination, volumes, phase)
  {
    hide CopyVolumeValid;
    var requiresReserved := phase in {Reserved, WarmCopying, WarmCopied};
    if volumes == [] && !requiresReserved {
      return true;
    }
    if |volumes| != |plan| {
      return false;
    }
    var distinct, indexes := IndexBySource(volumes);
    if !distinct {
      return false;
    }
    for k := 0 to |plan|
      invariant forall j | 0 <= j < k :: Found(plan[j], volumes, destination, phase)
    {
      var name := plan[k].sourcePVC.name;
      if name !in indexes || !CopyVolumeValid(plan[k], volumes[indexes[name]], destination, phase) {
        assert !Found(plan[k], volumes, destination, phase);
        return false;
      }
    }
    return true;
  }

  // ------------------------------------------------------------ the handoff

  /** The copy may change how data is transferred, not what was reserved. */
  predicate SameStorage(reserved: TransferSpec, spec: CopySpec) {
    spec.transfer.(
      sourceNode := reserved.sourceNode,
      strategies := reserved.strategies,
      verifyChecksum := reserved.verifyChecksum,
      deleteExtraneous := reserved.deleteExtraneous,
      policy := reserved.policy) == reserved
  }

  /** What was reserved is the volumes, where they come from and go to, and how they are placed. */
  lemma SameStorageMeans(reserved: TransferSpec, spec: CopySpec)
    ensures SameStorage(reserved, spec) <==>
              && spec.transfer.source == reserved.source && spec.transfer.destination == reserved.destination
              && spec.transfer.requests == reserved.requests && spec.transfer.placement == reserved.placement
  {
  }

  function Handed(volumes: seq<ClusterReservation>): (copies: seq<CopyVolume>)
    ensures |copies| == |volumes| && forall i | 0 <= i < |volumes| :: copies[i] == CopyVolume(volumes[i], false, 0)
  {
    seq(|volumes|, i requires 0 <= i < |volumes| => CopyVolume(volumes[i], false, 0))
  }

  ghost function Sources(volumes: seq<ClusterReservation>): (names: seq<string>)
    ensures |names| == |volumes| && forall i | 0 <= i < |volumes| :: names[i] == volumes[i].source
  {
    seq(|volumes|, i requires 0 <= i < |volumes| => volumes[i].source)
  }

  /** Distinct known checkpoints, one per planned volume, are found from the plan's side too. */
  lemma HandedCheckpointsAreFound(plan: seq<VolumeSpec>, volumes: seq<ClusterReservation>, destination: string, k: nat)
    requires DistinctSources(plan) && k < |plan|
    requires ReservationCheckpointsValid(plan, volumes, destination, Reserved)
    ensures Found(plan[k], Handed(volumes), destination, Reserved)
  {
    hide ClusterReservationValid;
    var names, sources := PlannedNames(plan), Sources(volumes);
    forall i | 0 <= i < |sources| ensures sources[i] in names {
      assert CheckpointFits(plan, volumes[i], destination, Reserved);
      var v :| v in plan && v.sourcePVC.name == volumes[i].source;
      var j :| 0 <= j < |plan| && plan[j] == v;
      assert names[j] == sources[i];
    }
    CoverageIsExact(names, sources);
    assert names[k] in names;
    var i :| 0 <= i < |sources| && sources[i] == names[k];
    assert CheckpointFits(plan, volumes[i], destination, Reserved);
    var v :| v in plan && v.sourcePVC.name == volumes[i].source && ClusterReservationValid(v, volumes[i], destination);
    var j :| 0 <= j < |plan| && plan[j] == v;
    assert j == k;
    assert Handed(volumes)[i] == CopyVolume(volumes[i], false, 0);
    assert CopyVolumeValid(plan[k], Handed(volumes)[i], destination, Reserved);
  }

  lemma HandedIsValid(plan: seq<VolumeSpec>, volumes: seq<ClusterReservation>, destination: string)
    requires DistinctSources(plan) && ReservationCheckpointsValid(plan, volumes, destination, Reserved)
    ensures CopyCheckpointsValid(plan, destination, Handed(volumes), Reserved)
  {
    hide CheckpointFits, Found;
    forall k | 0 <= k < |plan| ensures Found(plan[k], Handed(volumes), destination, Reserved) {
      HandedCheckpointsAreFound(plan, volumes, destination, k);
    }
  }

  /** The reserved plan, with the transfer as the copy asks for it; what the copy does not change stays as planned. */
  predicate AsAsked(r: ReservationObject, spec: CopySpec, resolved: seq<string>, plan: CopyPlan)
    requires r.plan.Some?
  {
    var reserved := r.plan.value;
    && plan.source == reserved.source && plan.destination == reserved.destination
    && plan.volumes == reserved.volumes && plan.settings == reserved.settings
    && plan.sourceNode == (if spec.transfer.sourceNode == r.spec.sourceNode then reserved.sourceNode
                           else spec.transfer.sourceNode)
    && plan.strategies == (if reserved.strategies != [] && spec.transfer.strategies == r.spec.strategies
                           then reserved.strategies else resolved)
    && plan.verifyChecksum == spec.transfer.verifyChecksum && plan.deleteExtraneous == spec.transfer.deleteExtraneous
    && plan.policy == spec.transfer.policy && plan.online == spec.online
  }

  /** A reserved copy of the same volumes with nothing left to reserve and nothing transferred. */
  predicate Faithful(r: ReservationObject, spec: CopySpec, resolved: seq<string>, c: CopyObject) {
    && r.plan.Some? && c.plan.Some?
    && c.name == r.name && c.spec == spec && c.status == r.status && c.status.phase == Reserved
    && !c.deleting && c.sourceNode == ""
    && AsAsked(r, spec, resolved, c.plan.value)
    && |c.volumes| == |r.volumes| == |r.plan.value.volumes|
    && forall i | 0 <= i < |r.volumes| ::
         c.volumes[i].reservation == r.volumes[i] && r.volumes[i].reserved && c.volumes[i].attempts == 0 && !c.volumes[i].warmDone
  }

  method CopyFromReservation(r: ReservationObject, spec: CopySpec, resolved: seq<string>, strategiesValid: bool)
    returns (outcome: Outcome)
    ensures outcome != InvalidCopy
    ensures outcome.Copied? <==>
              && ReservationValid(r) && r.status.phase == Reserved && !r.deleting
              && UnusedPolicyValid(spec.transfer.policy) && SameStorage(r.spec, spec)
              && strategiesValid
    ensures outcome == InvalidReservation <==> !ReservationValid(r)
    ensures outcome == NotReady <==> ReservationValid(r) && (r.status.phase != Reserved || r.deleting)
    ensures outcome == DifferentInput <==>
              && ReservationValid(r) && r.status.phase == Reserved && !r.deleting
              && !(UnusedPolicyValid(spec.transfer.policy) && SameStorage(r.spec, spec))
    ensures outcome.Copied? ==> CopyValid(outcome.copy) && Faithful(r, spec, resolved, outcome.copy)
  {
    hide PlanValid, RequestsMet, ReservationCheckpointsValid, CopyCheckpointsValid;
    if !ReservationValid(r) {
      return InvalidReservation;
    }
    if r.status.phase != Reserved || r.deleting {
      return NotReady;
    }
    if !UnusedPolicyValid(spec.transfer.policy) || !SameStorage(r.spec, spec) {
      return DifferentInput;
    }
    var plan := r.plan.value;
    if spec.transfer.sourceNode != r.spec.sourceNode {
      plan := plan.(sourceNode := spec.transfer.sourceNode);
    }
    if |plan.strategies| == 0 || spec.transfer.strategies != r.spec.strategies {
      plan := plan.(strategies := resolved);
    }
    if !strategiesValid {
      return BadStrategies;
    }
    var volumes: seq<CopyVolume> := [];
    for i := 0 to |r.volumes|
      invariant volumes == Handed(r.volumes)[..i]
    {
      volumes := volumes + [CopyVolume(r.volumes[i], false, 0)];
    }
    var copyPlan := CopyPlan(
      plan.source, plan.destination, plan.volumes, plan.sourceNode, plan.strategies,
      spec.transfer.verifyChecksum, spec.transfer.deleteExtraneous, spec.transfer.policy, plan.settings,
      spec.online);
    var copy := CopyObject(r.name, false, spec, r.status, Some(copyPlan), "", volumes);
    HandoffIsValid(r, spec, resolved, copy);
    var valid := CopyValid(copy);
    outcome := if valid then Copied(copy) else InvalidCopy;
  }

  lemma HandoffIsValid(r: ReservationObject, spec: CopySpec, resolved: seq<string>, c: CopyObject)
    requires ReservationValid(r) && r.status.phase == Reserved && !r.deleting
    requires UnusedPolicyValid(spec.transfer.policy) && SameStorage(r.spec, spec)
    requires c.name == r.name && !c.deleting && c.spec == spec && c.status == r.status && c.sourceNode == ""
    requires c.volumes == Handed(r.volumes) && r.plan.Some? && c.plan.Some?
    requires AsAsked(r, spec, resolved, c.plan.value)
    ensures CopyValid(c) && Faithful(r, spec, resolved, c)
  {
    hide RequestsMet, ClusterReservationValid, SpecValid, CopyCheckpointsValid;
    HandedIsValid(r.plan.value.volumes, r.volumes, r.plan.value.destination);
    assert forall i | 0 <= i < |r.volumes| :: CheckpointFits(r.plan.value.volumes, r.volumes[i], r.plan.value.destination, Reserved);
  }
}
