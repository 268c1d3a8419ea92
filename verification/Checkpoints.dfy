/**
 The durable per-volume checkpoints of a namespaced workflow and the checks every
 command makes on them before it acts.
 */
module Checkpoints {
  import opened Lifecycle

  datatype Option<+T> = None | Some(value: T)

  /** A reference inside the workflow's own namespace. */
  datatype LocalRef = LocalRef(name: string, uid: string)

  /** Capacities are the parsed quantities. */
  datatype VolumeSpec = VolumeSpec(
    sourcePVC: LocalRef,
    sourcePV: LocalRef,
    destinationPVC: LocalRef,
    sourceCapacity: int,
    capacity: int)

  datatype Reservation = Reservation(
    source: string,
    pvc: Option<LocalRef>,
    pv: Option<LocalRef>,
    policy: string,
    reserved: bool)

  /** A recorded time is kept as whether it is set. */
  datatype Activation = Activation(
    temporaryDeleted: bool,
    sourceDeleted: bool,
    destinationReserved: bool,
    active: Option<LocalRef>,
    activated: bool,
    rolledBack: bool)

  const NO_ACTIVATION: Activation := Activation(false, false, false, None, false, false)

  function Unreserved(source: string): Reservation {
    Reservation(source, None, None, "", false)
  }

  // ----------------------------------------------------------------- plans

  predicate SpecValid(v: VolumeSpec, sameNamespace: bool) {
    && v.sourcePVC.name != "" && v.sourcePVC.uid != ""
    && v.sourcePV.name != "" && v.sourcePV.uid != ""
    && v.destinationPVC.name != ""
    && (sameNamespace ==> v.sourcePVC.name != v.destinationPVC.name)
    && v.sourceCapacity > 0 && v.capacity > 0
  }

  predicate DistinctSources(plan: seq<VolumeSpec>) {
    forall i, j | 0 <= i < j < |plan| :: plan[i].sourcePVC.name != plan[j].sourcePVC.name
  }

  predicate DistinctDestinations(plan: seq<VolumeSpec>) {
    forall i, j | 0 <= i < j < |plan| :: plan[i].destinationPVC.name != plan[j].destinationPVC.name
  }

  predicate PlanValid(plan: seq<VolumeSpec>, sameNamespace: bool) {
    && (forall v <- plan :: SpecValid(v, sameNamespace))
    && DistinctSources(plan)
    && DistinctDestinations(plan)
  }

  /** The planned volumes by source name, or `None` when the plan itself is rejected. */
  method ValidateReservationVolumes(plan: seq<VolumeSpec>, sameNamespace: bool)
    returns (volumes: Option<map<string, VolumeSpec>>)
    ensures volumes.Some? <==> PlanValid(plan, sameNamespace)
    ensures volumes.Some? ==> Indexes(volumes.value, plan)
  {
    hide SpecValid;
    var byName: map<string, VolumeSpec> := map[];
    var destinations: set<string> := {};
    for i := 0 to |plan|
      invariant PlanValid(plan[..i], sameNamespace)
      invariant Indexes(byName, plan[..i])
      invariant destinations == set v <- plan[..i] :: v.destinationPVC.name
    {
      var v := plan[i];
      assert plan[..i + 1] == plan[..i] + [v];
      if !SpecValid(v, sameNamespace) {
        assert v in plan;
        return None;
      }
      if v.sourcePVC.name in byName || v.destinationPVC.name in destinations {
        return None;
      }
      byName := byName[v.sourcePVC.name := v];
      destinations := destinations + {v.destinationPVC.name};
    }
    assert plan[..|plan|] == plan;
    return Some(byName);
  }

  predicate Indexes(volumes: map<string, VolumeSpec>, plan: seq<VolumeSpec>) {
    && (forall i | 0 <= i < |plan| ::
          plan[i].sourcePVC.name in volumes && volumes[plan[i].sourcePVC.name] == plan[i])
    && (forall name <- volumes :: volumes[name] in plan && volumes[name].sourcePVC.name == name)
  }

  // ------------------------------------------------------------ one volume

  predicate ReservationValid(spec: VolumeSpec, r: Reservation) {
    && (r.pvc.Some? ==> r.pvc.value.name == spec.destinationPVC.name && r.pvc.value.uid != "")
    && (r.pv.Some? ==> r.pv.value.name != "" && r.pv.value.uid != "")
    && (r.reserved ==> r.pvc.Some? && r.pv.Some?)
  }

  predicate LocalCheckpointValid(spec: VolumeSpec, r: Reservation, a: Activation, attempts: int) {
    && ReservationValid(spec, r)
    && (a.active.Some? ==> a.active.value.name == spec.sourcePVC.name && a.active.value.uid != "")
    && attempts >= 0
    && (attempts > 0 ==> r.reserved)
    && (a.activated || a.rolledBack ==> a.active.Some?)
  }

  predicate VolumePhaseValid(reserved: bool, finalDone: bool, activated: bool, rolledBack: bool, phase: Phase) {
    && (phase !in {Planned, Reserving, Aborting, Aborted} ==> reserved)
    && (phase in {FinalSynced, Activating, Activated, Resuming, Completed} ==> finalDone)
    && (phase in {Activated, Resuming, Completed} ==> activated)
    && (phase == RolledBack ==> rolledBack)
  }

  // --------------------------------------------------------------- coverage

  /** The phases in which a record may have no checkpoints at all. */
  predicate UncoveredAllowed(phase: Phase) {
    phase in {Planned, Reserving, Aborting, Aborted}
  }

  predicate Distinct(names: seq<string>) {
    forall i, j | 0 <= i < j < |names| :: names[i] != names[j]
  }

  ghost function PlannedNames(plan: seq<VolumeSpec>): (names: seq<string>)
    ensures |names| == |plan| && forall i | 0 <= i < |plan| :: names[i] == plan[i].sourcePVC.name
  {
    seq(|plan|, i requires 0 <= i < |plan| => plan[i].sourcePVC.name)
  }

  ghost function Elements(names: seq<string>): set<string> {
    set name <- names
  }

  lemma {:induction false} DistinctCardinality(names: seq<string>)
    requires Distinct(names)
    ensures |Elements(names)| == |names|
  {
    if names != [] {
      var front := names[..|names| - 1];
      var last := names[|names| - 1];
      DistinctCardinality(front);
      assert names == front + [last];
      assert Elements(names) == Elements(front) + {last};
      assert last !in Elements(front);
    }
  }

  lemma SubsetOfSameSize(small: set<string>, large: set<string>)
    requires small <= large && |small| == |large|
    ensures small == large
  {
    if small != large {
      var x :| x in large && x !in small;
      assert small <= large - {x};
      SmallerSubset(small, large - {x});
    }
  }

  lemma {:induction false} SmallerSubset(small: set<string>, large: set<string>)
    requires small <= large
    ensures |small| <= |large|
  {
    if small != {} {
      var x :| x in small;
      SmallerSubset(small - {x}, large - {x});
    }
  }

  /**
   Counting is enough: distinct known names, as many as were planned, leave no
   planned volume without its checkpoint.
   */
  lemma CoverageIsExact(planned: seq<string>, recorded: seq<string>)
    requires Distinct(planned) && Distinct(recorded) && |planned| == |recorded|
    requires forall name <- recorded :: name in planned
    ensures forall name <- planned :: name in recorded
  {
    DistinctCardinality(planned);
    DistinctCardinality(recorded);
    SubsetOfSameSize(Elements(recorded), Elements(planned));
    forall name <- planned ensures name in recorded {
      assert name in Elements(planned);
    }
  }
}
