/**
 The durable records of the offline migration, in both of its forms: the namespaced
 one keeps local references, the cluster-scoped one qualified references. The
 conversions between them and the two validators.
 */
module OfflineRecords {
  import opened Lifecycle
  import opened Checkpoints

  datatype ObjectRef = ObjectRef(namespace: string, name: string, uid: string)

  datatype ClusterReservation = ClusterReservation(
    source: string, pvc: Option<ObjectRef>, pv: Option<ObjectRef>, policy: string, reserved: bool)

  datatype ClusterActivation = ClusterActivation(
    temporaryDeleted: bool,
    sourceDeleted: bool,
    destinationReserved: bool,
    active: Option<ObjectRef>,
    activated: bool,
    rolledBack: bool)

  datatype Sync = Sync(finalDone: bool, checksumVerified: bool, attempts: int)

  datatype Volume = Volume(reservation: Reservation, sync: Sync, activation: Activation)
  datatype ClusterVolume = ClusterVolume(
    reservation: ClusterReservation, sync: Sync, activation: ClusterActivation)

  datatype Record = Record(status: Status, volumes: seq<Volume>)
  datatype ClusterRecord = ClusterRecord(status: Status, volumes: seq<ClusterVolume>)

  // ----------------------------------------------------------- conversions

  function QualifiedRef(ref: LocalRef, namespace: string): ObjectRef {
    ObjectRef(namespace, ref.name, ref.uid)
  }

  function Qualified(ref: Option<LocalRef>, namespace: string): Option<ObjectRef> {
    match ref
    case None => None
    case Some(r) => Some(QualifiedRef(r, namespace))
  }

  function QualifiedReservation(r: Reservation, namespace: string): ClusterReservation {
    ClusterReservation(r.source, Qualified(r.pvc, namespace), Qualified(r.pv, ""), r.policy, r.reserved)
  }

  function QualifiedActivation(a: Activation, namespace: string): ClusterActivation {
    ClusterActivation(a.temporaryDeleted, a.sourceDeleted, a.destinationReserved,
                      Qualified(a.active, namespace), a.activated, a.rolledBack)
  }

  /** `None` when a reference lies outside the expected namespace. */
  function LocalReservation(c: ClusterReservation, namespace: string): Option<Reservation> {
    if c.pvc.Some? && c.pvc.value.namespace != namespace then None
    else if c.pv.Some? && c.pv.value.namespace != "" then None
    else Some(Reservation(c.source, Unqualified(c.pvc), Unqualified(c.pv), c.policy, c.reserved))
  }

  function LocalActivation(c: ClusterActivation, namespace: string): Option<Activation> {
    if c.active.Some? && c.active.value.namespace != namespace then None
    else Some(Activation(c.temporaryDeleted, c.sourceDeleted, c.destinationReserved,
                         Unqualified(c.active), c.activated, c.rolledBack))
  }

  function Unqualified(ref: Option<ObjectRef>): Option<LocalRef> {
    match ref
    case None => None
    case Some(r) => Some(LocalRef(r.name, r.uid))
  }

  function QualifyVolume(v: Volume, namespace: string): ClusterVolume {
    ClusterVolume(QualifiedReservation(v.reservation, namespace), v.sync, QualifiedActivation(v.activation, namespace))
  }

  function Qualify(r: Record, namespace: string): (c: ClusterRecord)
    ensures c.status == r.status && |c.volumes| == |r.volumes|
    ensures forall i | 0 <= i < |r.volumes| :: c.volumes[i] == QualifyVolume(r.volumes[i], namespace)
  {
    ClusterRecord(r.status,
                  seq(|r.volumes|, i requires 0 <= i < |r.volumes| => QualifyVolume(r.volumes[i], namespace)))
  }

  /** Converting back is exact, in both directions. */
  lemma LocalInvertsQualified(r: Reservation, a: Activation, namespace: string)
    ensures LocalReservation(QualifiedReservation(r, namespace), namespace) == Some(r)
    ensures LocalActivation(QualifiedActivation(a, namespace), namespace) == Some(a)
  {
    OptionInverts(r.pvc, namespace);
    OptionInverts(r.pv, "");
    OptionInverts(a.active, namespace);
  }

  lemma OptionInverts(ref: Option<LocalRef>, namespace: string)
    ensures Unqualified(Qualified(ref, namespace)) == ref
  {
  }

  lemma QualifiedInvertsLocal(c: ClusterReservation, a: ClusterActivation, namespace: string)
    ensures LocalReservation(c, namespace).Some? ==>
              QualifiedReservation(LocalReservation(c, namespace).value, namespace) == c
    ensures LocalActivation(a, namespace).Some? ==>
              QualifiedActivation(LocalActivation(a, namespace).value, namespace) == a
  {
    RefInverts(c.pvc, namespace);
    RefInverts(c.pv, "");
    RefInverts(a.active, namespace);
  }

  lemma RefInverts(ref: Option<ObjectRef>, namespace: string)
    ensures (ref.Some? ==> ref.value.namespace == namespace) ==> Qualified(Unqualified(ref), namespace) == ref
  {
  }

  // ------------------------------------------------------------ validators

  predicate ClusterReservationValid(spec: VolumeSpec, c: ClusterReservation, temporary: string) {
    && (c.pvc.Some? ==>
          c.pvc.value.name == spec.destinationPVC.name && c.pvc.value.namespace == temporary && c.pvc.value.uid != "")
    && (c.pv.Some? ==> c.pv.value.name != "" && c.pv.value.uid != "" && c.pv.value.namespace == "")
    && (c.reserved ==> c.pvc.Some? && c.pv.Some?)
  }

  predicate ActiveValid(spec: VolumeSpec, active: Option<ObjectRef>, destination: string) {
    active.Some? ==>
      active.value.name == spec.sourcePVC.name && active.value.namespace == destination && active.value.uid != ""
  }

  predicate ClusterCheckpointValid(spec: VolumeSpec, c: ClusterReservation, a: ClusterActivation,
                                   attempts: int, destination: string, temporary: string) {
    && ClusterReservationValid(spec, c, temporary)
    && ActiveValid(spec, a.active, destination)
    && attempts >= 0
    && (attempts > 0 ==> c.reserved)
    && (a.activated || a.rolledBack ==> a.active.Some?)
  }

  predicate VolumeValid(spec: VolumeSpec, v: Volume, phase: Phase) {
    && LocalCheckpointValid(spec, v.reservation, v.activation, v.sync.attempts)
    && VolumePhaseValid(v.reservation.reserved, v.sync.finalDone,
                        v.activation.activated, v.activation.rolledBack, phase)
  }

  predicate ClusterVolumeValid(spec: VolumeSpec, v: ClusterVolume, phase: Phase,
                               destination: string, temporary: string) {
    && ClusterCheckpointValid(spec, v.reservation, v.activation, v.sync.attempts, destination, temporary)
    && VolumePhaseValid(v.reservation.reserved, v.sync.finalDone,
                        v.activation.activated, v.activation.rolledBack, phase)
  }

  predicate CheckpointsValid(plan: seq<VolumeSpec>, volumes: seq<Volume>, phase: Phase) {
    || (volumes == [] && UncoveredAllowed(phase))
    || (&& |volumes| == |plan|
        && (forall i, j | 0 <= i < j < |volumes| ::
              volumes[i].reservation.source != volumes[j].reservation.source)
        && (forall i | 0 <= i < |volumes| :: Known(plan, volumes[i], phase)))
  }

  predicate Known(plan: seq<VolumeSpec>, v: Volume, phase: Phase) {
    exists spec <- plan :: spec.sourcePVC.name == v.reservation.source && VolumeValid(spec, v, phase)
  }

  predicate ClusterCheckpointsValid(plan: seq<VolumeSpec>, volumes: seq<ClusterVolume>, phase: Phase,
                                    destination: string, temporary: string) {
    || (volumes == [] && UncoveredAllowed(phase))
    || (&& |volumes| == |plan|
        && (forall i, j | 0 <= i < j < |volumes| ::
              volumes[i].reservation.source != volumes[j].reservation.source)
        && (forall i | 0 <= i < |volumes| :: ClusterKnown(plan, volumes[i], phase, destination, temporary)))
  }

  predicate ClusterKnown(plan: seq<VolumeSpec>, v: ClusterVolume, phase: Phase,
                         destination: string, temporary: string) {
    exists spec <- plan ::
      spec.sourcePVC.name == v.reservation.source && ClusterVolumeValid(spec, v, phase, destination, temporary)
  }

  method ValidateClusterCheckpoints(plan: seq<VolumeSpec>, byName: map<string, VolumeSpec>,
                                    volumes: seq<ClusterVolume>, phase: Phase,
                                    destination: string, temporary: string)
    returns (ok: bool)
    requires DistinctSources(plan) && Indexes(byName, plan)
    ensures ok <==> ClusterCheckpointsValid(plan, volumes, phase, destination, temporary)
  {
    hide ClusterVolumeValid;
    if volumes == [] && UncoveredAllowed(phase) {
      return true;
    }
    if |volumes| != |plan| {
      return false;
    }
    var seen: set<string> := {};
    for i := 0 to |volumes|
      invariant seen == set j | 0 <= j < i :: volumes[j].reservation.source
      invariant forall j, k | 0 <= j < k < i :: volumes[j].reservation.source != volumes[k].reservation.source
      invariant forall j | 0 <= j < i :: ClusterKnown(plan, volumes[j], phase, destination, temporary)
    {
      var v := volumes[i];
      var name := v.reservation.source;
      if name !in byName || name in seen {
        return false;
      }
      var spec := byName[name];
      if !ClusterVolumeValid(spec, v, phase, destination, temporary) {
        assert forall other <- plan :: other.sourcePVC.name == name ==> other == spec;
        return false;
      }
      assert spec in plan;
      seen := seen + {name};
    }
    return true;
  }

  method ValidateCheckpoints(plan: seq<VolumeSpec>, byName: map<string, VolumeSpec>,
                             volumes: seq<Volume>, phase: Phase)
    returns (ok: bool)
    requires DistinctSources(plan) && Indexes(byName, plan)
    ensures ok <==> CheckpointsValid(plan, volumes, phase)
  {
    hide VolumeValid;
    if volumes == [] && UncoveredAllowed(phase) {
      return true;
    }
    if |volumes| != |plan| {
      return false;
    }
    var seen: set<string> := {};
    for i := 0 to |volumes|
      invariant seen == set j | 0 <= j < i :: volumes[j].reservation.source
      invariant forall j, k | 0 <= j < k < i :: volumes[j].reservation.source != volumes[k].reservation.source
      invariant forall j | 0 <= j < i :: Known(plan, volumes[j], phase)
    {
      var v := volumes[i];
      var name := v.reservation.source;
      if name !in byName || name in seen {
        return false;
      }
      var spec := byName[name];
      if !VolumeValid(spec, v, phase) {
        assert forall other <- plan :: other.sourcePVC.name == name ==> other == spec;
        return false;
      }
      assert spec in plan;
      seen := seen + {name};
    }
    return true;
  }

  predicate RecordValid(plan: seq<VolumeSpec>, r: Record) {
    && OfflineLifecycleValid(r.status) && r.status.phase != Unset
    && plan != [] && PlanValid(plan, true)
    && CheckpointsValid(plan, r.volumes, Effective(r.status))
  }

  predicate ClusterRecordValid(plan: seq<VolumeSpec>, r: ClusterRecord,
                               source: string, temporary: string, destination: string) {
    && OfflineLifecycleValid(r.status) && r.status.phase != Unset
    && plan != [] && PlanValid(plan, source == temporary)
    && ClusterCheckpointsValid(plan, r.volumes, Effective(r.status), destination, temporary)
  }

  // ------------------------------------------------------------- agreement

  lemma VolumeValidatorsAgree(spec: VolumeSpec, v: Volume, phase: Phase, namespace: string)
    ensures VolumeValid(spec, v, phase) <==>
            ClusterVolumeValid(spec, QualifyVolume(v, namespace), phase, namespace, namespace)
  {
  }

  lemma KnownAgree(plan: seq<VolumeSpec>, v: Volume, phase: Phase, namespace: string)
    ensures Known(plan, v, phase) <==> ClusterKnown(plan, QualifyVolume(v, namespace), phase, namespace, namespace)
  {
    hide VolumeValid, ClusterVolumeValid;
    forall spec | spec in plan
      ensures VolumeValid(spec, v, phase) <==>
              ClusterVolumeValid(spec, QualifyVolume(v, namespace), phase, namespace, namespace)
    {
      VolumeValidatorsAgree(spec, v, phase, namespace);
    }
  }

  /**
   A namespaced record is valid exactly when its qualified form is valid for a
   cluster-scoped migration whose three namespaces are that one.
   */
  lemma ValidatorsAgree(plan: seq<VolumeSpec>, r: Record, namespace: string)
    ensures RecordValid(plan, r) <==> ClusterRecordValid(plan, Qualify(r, namespace), namespace, namespace, namespace)
  {
    hide Known, ClusterKnown, PlanValid;
    var c := Qualify(r, namespace);
    var phase := Effective(r.status);
    forall i | 0 <= i < |r.volumes|
      ensures Known(plan, r.volumes[i], phase) <==> ClusterKnown(plan, c.volumes[i], phase, namespace, namespace)
    {
      KnownAgree(plan, r.volumes[i], phase, namespace);
    }
    assert CheckpointsValid(plan, r.volumes, phase)
      <==> ClusterCheckpointsValid(plan, c.volumes, phase, namespace, namespace);
  }

  /**
   The namespaced executor refuses a storage result exactly when the cluster
   validator would refuse it for its namespaces: a result that is otherwise valid
   is localized if and only if it is valid.
   */
  lemma LocalizationIsValidation(spec: VolumeSpec, c: ClusterReservation, a: ClusterActivation,
                                 attempts: int, namespace: string)
    requires var r := Reservation(c.source, Unqualified(c.pvc), Unqualified(c.pv), c.policy, c.reserved);
             var b := Activation(a.temporaryDeleted, a.sourceDeleted, a.destinationReserved,
                                 Unqualified(a.active), a.activated, a.rolledBack);
             LocalCheckpointValid(spec, r, b, attempts)
    ensures LocalReservation(c, namespace).Some? && LocalActivation(a, namespace).Some? <==>
            ClusterCheckpointValid(spec, c, a, attempts, namespace, namespace)
  {
  }
}
