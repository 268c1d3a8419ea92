/**
 What cleanup works out before it acts: the staged destination recovered from the
 live objects, and for each volume the two copies with the one that may be deleted.
 */
module Recovery {
  import opened Lifecycle
  import opened Checkpoints
  import opened OfflineRecords
  import opened Storage

  function ParsePolicy(text: string): Policy {
    if text == "" then NoPolicy
    else if text == "Retain" then Retain
    else if text == "Delete" then Delete
    else if text == "Recycle" then Recycle
    else OtherPolicy
  }

  function PolicyText(p: Policy): string
    requires ValidPolicy(p)
  {
    match p
    case Retain => "Retain"
    case Delete => "Delete"
    case _ => "Recycle"
  }

  // -------------------------------------------------------------- recovery

  predicate ClaimRecoveryOwned(claim: Claim, id: string, sourceUid: string, known: bool) {
    if known then
      && OwnerOrNone(At(claim.labels, SESSION), id)
      && OwnerOrNone(At(claim.annotations, SESSION), id)
      && At(claim.labels, ROLE) in {"", "destination"}
      && OwnerOrNone(At(claim.annotations, SOURCE_PVC_UID), sourceUid)
    else
      && At(claim.labels, MANAGED_BY) == MANAGED_BY_VALUE
      && At(claim.labels, SESSION) == id
      && At(claim.labels, ROLE) == "destination"
      && At(claim.annotations, SESSION) == id
      && At(claim.annotations, SOURCE_PVC_UID) == sourceUid
  }

  /** Terminal cleanup may meet a claim that an earlier pass already released. */
  predicate ClaimRecoveryAllowed(claim: Claim, id: string, sourceUid: string, known: bool, terminal: bool) {
    || ClaimRecoveryOwned(claim, id, sourceUid, known)
    || (terminal && At(claim.labels, MANAGED_BY) == "" && At(claim.labels, SESSION) == ""
        && At(claim.labels, ROLE) == "" && At(claim.annotations, SESSION) == "")
  }

  predicate PVRecoveryOwned(pv: PV, id: string, expected: Option<ObjectRef>, recorded: Policy) {
    || (pv.managedBy == MANAGED_BY_VALUE && pv.session == id && pv.role == DestinationRole)
    || (expected.Some? && expected.value.uid == pv.uid && pv.session == "" && pv.role == NoRole
        && pv.annotatedSession == "" && pv.original == NoPolicy && ValidPolicy(recorded) && pv.policy == recorded)
  }

  datatype Recovered = Missing | Conflict | Found(pv: ObjectRef, policy: Policy)

  function RecoverPV(c: Cluster, id: string, claim: ObjectRef, name: string, expected: Option<ObjectRef>,
                     recorded: Policy, allowUnowned: bool): Recovered {
    if expected.Some? && expected.value.name != name then Conflict
    else if name !in c.volumes then Missing
    else
      var pv := c.volumes[name];
      var policy := if pv.original == NoPolicy then pv.policy else pv.original;
      if expected.Some? && expected.value.uid != "" && expected.value.uid != pv.uid then Conflict
      else if pv.claim != Some(claim) then Conflict
      else if !PVRecoveryOwned(pv, id, expected, recorded) && !(allowUnowned && UncheckpointedMatches(pv, claim))
      then Conflict
      else if !ValidPolicy(policy) || (recorded != NoPolicy && recorded != policy)
              || (pv.policy != Retain && pv.policy != policy)
      then Conflict
      else Found(ObjectRef("", name, pv.uid), policy)
  }

  /** `None` on a conflict; the checkpoint as it is when there is no live claim. */
  function Recover(c: Cluster, id: string, source: ObjectRef, destination: ObjectRef,
                   checkpoint: ClusterReservation, terminal: bool): Option<ClusterReservation> {
    if destination.name == "" || destination.namespace == "" || source.uid == "" || id == "" then None
    else if Key(source) == Key(destination) then None
    else if checkpoint.pvc.Some? && Key(checkpoint.pvc.value) != Key(destination) then None
    else if Key(destination) !in c.claims then Some(checkpoint)
    else
      var claim := c.claims[Key(destination)];
      var known := destination.uid != "" || (checkpoint.pvc.Some? && checkpoint.pvc.value.uid != "");
      if destination.uid != "" && destination.uid != claim.uid then None
      else if checkpoint.pvc.Some? && checkpoint.pvc.value.uid != "" && checkpoint.pvc.value.uid != claim.uid then None
      else if !ClaimRecoveryAllowed(claim, id, source.uid, known, terminal) then None
      else
        var ref := ObjectRef(destination.namespace, destination.name, claim.uid);
        var found := checkpoint.(pvc := Some(ref));
        if claim.volume == "" then Some(found)
        else
          match RecoverPV(c, id, ref, claim.volume, checkpoint.pv, ParsePolicy(checkpoint.policy), !checkpoint.reserved)
          case Missing => Some(found)
          case Conflict => None
          case Found(pv, policy) => Some(found.(pv := Some(pv), policy := PolicyText(policy)))
  }

  lemma PolicyTextParses(p: Policy)
    requires ValidPolicy(p)
    ensures ParsePolicy(PolicyText(p)) == p
  {
  }

  /** Recovery never replaces an identity it was given, and recovering again changes nothing. */
  lemma RecoveryIsStable(c: Cluster, id: string, source: ObjectRef, destination: ObjectRef,
                         checkpoint: ClusterReservation, terminal: bool)
    requires Recover(c, id, source, destination, checkpoint, terminal).Some?
    ensures
      var r := Recover(c, id, source, destination, checkpoint, terminal).value;
      && (checkpoint.pvc.Some? && checkpoint.pvc.value.uid != "" ==> r.pvc == checkpoint.pvc)
      && (checkpoint.pv.Some? && checkpoint.pv.value.uid != "" ==>
            r.pv.Some? && r.pv.value.name == checkpoint.pv.value.name && r.pv.value.uid == checkpoint.pv.value.uid)
      && r.reserved == checkpoint.reserved && r.source == checkpoint.source
  {
  }

  lemma RecoveryIsIdempotent(c: Cluster, id: string, source: ObjectRef, destination: ObjectRef,
                             checkpoint: ClusterReservation, terminal: bool)
    requires Recover(c, id, source, destination, checkpoint, terminal).Some?
    requires Key(destination) in c.claims ==> c.claims[Key(destination)].uid != ""
    ensures
      var r := Recover(c, id, source, destination, checkpoint, terminal);
      Recover(c, id, source, destination, r.value, terminal) == r
  {
    var r := Recover(c, id, source, destination, checkpoint, terminal).value;
    if Key(destination) in c.claims {
      var claim := c.claims[Key(destination)];
      var ref := ObjectRef(destination.namespace, destination.name, claim.uid);
      if claim.volume != "" {
        RecoverPVAgain(c, id, ref, claim.volume, checkpoint.pv, ParsePolicy(checkpoint.policy), !checkpoint.reserved);
        var found := RecoverPV(c, id, ref, claim.volume, checkpoint.pv, ParsePolicy(checkpoint.policy), !checkpoint.reserved);
        if found.Found? {
          PolicyTextParses(found.policy);
        }
      }
    }
  }

  /**
   What a recovered volume is reported with: its own UID, under the policy it had before
   the workflow, which is the annotated one or, without an annotation, the one in force;
   a recorded policy must be that one.
   */
  lemma RecoveredPolicy(c: Cluster, id: string, claim: ObjectRef, name: string, expected: Option<ObjectRef>,
                        recorded: Policy, allowUnowned: bool)
    requires RecoverPV(c, id, claim, name, expected, recorded, allowUnowned).Found?
    ensures
      var r := RecoverPV(c, id, claim, name, expected, recorded, allowUnowned);
      var pv := c.volumes[name];
      && name in c.volumes && pv.claim == Some(claim) && r.pv == ObjectRef("", name, pv.uid)
      && (pv.original in {Retain, Delete, Recycle} ==> r.policy == pv.original)
      && (pv.original == NoPolicy ==> r.policy == pv.policy)
      && r.policy in {Retain, Delete, Recycle} && (recorded != NoPolicy ==> r.policy == recorded)
      && (pv.policy == Retain || pv.policy == r.policy)
  {
  }

  /** The recovered checkpoint reports what was found: the live claim, and its volume under that policy. */
  lemma RecoveryReportsLive(c: Cluster, id: string, source: ObjectRef, destination: ObjectRef,
                            checkpoint: ClusterReservation, terminal: bool)
    requires Recover(c, id, source, destination, checkpoint, terminal).Some? && Key(destination) in c.claims
    ensures
      var r := Recover(c, id, source, destination, checkpoint, terminal).value;
      var claim := c.claims[Key(destination)];
      && r.pvc == Some(ObjectRef(destination.namespace, destination.name, claim.uid))
      && (claim.volume != "" && claim.volume in c.volumes ==>
            var pv := c.volumes[claim.volume];
            && r.pv == Some(ObjectRef("", claim.volume, pv.uid))
            && ParsePolicy(r.policy) == if pv.original == NoPolicy then pv.policy else pv.original)
      && (claim.volume == "" || claim.volume !in c.volumes ==> r.pv == checkpoint.pv && r.policy == checkpoint.policy)
  {
  }

  /**
   Recovery adopts nothing of another session's. A claim that neither the plan nor the
   record could name by UID is this session's staged claim of this very source, or met
   by a terminal cleanup with no mark left; a volume is marked as staged by this
   session, or is unmarked and recorded by UID, or unmarked and never checkpointed.
   */
  lemma RecoveryAdoptsItsOwn(c: Cluster, id: string, source: ObjectRef, destination: ObjectRef,
                             checkpoint: ClusterReservation, terminal: bool)
    requires Recover(c, id, source, destination, checkpoint, terminal).Some? && Key(destination) in c.claims
    ensures
      var claim := c.claims[Key(destination)];
      && id != "" && Key(destination) != Key(source)
      && At(claim.labels, SESSION) in {"", id} && At(claim.annotations, SESSION) in {"", id}
      && (destination.uid == "" && (checkpoint.pvc == None || checkpoint.pvc.value.uid == "") ==>
            || (terminal && At(claim.labels, SESSION) == "" && At(claim.labels, ROLE) == "")
            || (&& At(claim.labels, SESSION) == id && At(claim.labels, ROLE) == "destination"
                && At(claim.annotations, SOURCE_PVC_UID) == source.uid))
      && (claim.volume != "" && claim.volume in c.volumes ==>
            var pv := c.volumes[claim.volume];
            && pv.claim == Some(ObjectRef(destination.namespace, destination.name, claim.uid))
            && (|| (pv.session == id && pv.role == DestinationRole)
                || (&& pv.session == "" && pv.role == NoRole && pv.original == NoPolicy
                    && ((checkpoint.pv.Some? && checkpoint.pv.value.name == claim.volume && checkpoint.pv.value.uid == pv.uid)
                        || !checkpoint.reserved))))
  {
  }

  /** Nor does it miss its own: a claim and volume staged by this session are recovered, whatever part was recorded. */
  lemma RecoveryFindsItsOwn(c: Cluster, id: string, source: ObjectRef, destination: ObjectRef,
                            checkpoint: ClusterReservation, terminal: bool)
    requires id != "" && source.uid != "" && destination.name != "" && destination.namespace != ""
    requires Key(destination) in c.claims && Key(source) != Key(destination)
    requires
      var claim := c.claims[Key(destination)];
      && destination.uid in {"", claim.uid}
      && (checkpoint.pvc.Some? ==>
            Key(checkpoint.pvc.value) == Key(destination) && checkpoint.pvc.value.uid in {"", claim.uid})
      && At(claim.labels, MANAGED_BY) == MANAGED_BY_VALUE && At(claim.labels, SESSION) == id
      && At(claim.labels, ROLE) == "destination"
      && At(claim.annotations, SESSION) == id && At(claim.annotations, SOURCE_PVC_UID) == source.uid
      && claim.volume != "" && claim.volume in c.volumes
    requires
      var claim := c.claims[Key(destination)];
      var pv := c.volumes[claim.volume];
      && pv.claim == Some(ObjectRef(destination.namespace, destination.name, claim.uid))
      && pv.managedBy == MANAGED_BY_VALUE && pv.session == id && pv.role == DestinationRole
      && ValidPolicy(pv.original) && pv.policy in {Retain, pv.original}
      && (checkpoint.pv.Some? ==> checkpoint.pv.value.name == claim.volume && checkpoint.pv.value.uid in {"", pv.uid})
      && ParsePolicy(checkpoint.policy) in {NoPolicy, pv.original}
    ensures
      var claim := c.claims[Key(destination)];
      var pv := c.volumes[claim.volume];
      var r := Recover(c, id, source, destination, checkpoint, terminal);
      && r.Some? && r.value.reserved == checkpoint.reserved
      && r.value.pvc == Some(ObjectRef(destination.namespace, destination.name, claim.uid))
      && r.value.pv == Some(ObjectRef("", claim.volume, pv.uid))
      && ParsePolicy(r.value.policy) == pv.original
  {
  }

  lemma RecoverPVAgain(c: Cluster, id: string, claim: ObjectRef, name: string, expected: Option<ObjectRef>,
                       recorded: Policy, allowUnowned: bool)
    ensures
      var r := RecoverPV(c, id, claim, name, expected, recorded, allowUnowned);
      r.Found? ==> ValidPolicy(r.policy) && RecoverPV(c, id, claim, name, Some(r.pv), r.policy, allowUnowned) == r
  {
  }

  // ----------------------------------------------------------- preparation

  datatype PlannedCopy = PlannedCopy(spec: VolumeSpec, policy: Policy, metadata: Metadata)

  /** The two copies of one volume as cleanup will treat them; a source that was never owned is only released. */
  datatype Pair = Pair(source: Option<ReclaimVolume>, destination: Option<ReclaimVolume>)

  /** The annotation written when the volume was first protected is the original policy. */
  function ResolvedSourcePolicy(c: Cluster, pv: ObjectRef, planned: Policy): Policy {
    if pv.name in c.volumes && c.volumes[pv.name].uid == pv.uid && ValidPolicy(c.volumes[pv.name].original)
    then c.volumes[pv.name].original
    else planned
  }

  /** Whether the staged destination is the copy to delete. */
  predicate DeletesDestination(c: Cluster, phase: Phase, source: ObjectRef, reserved: bool,
                               active: Option<ObjectRef>, deleteUnused: bool) {
    && deleteUnused
    && (|| phase == RolledBack
        || (phase == Aborted && (active.Some? || (reserved && Key(source) in c.claims))))
  }

  predicate SourceReleasable(c: Cluster, session: string, source: ObjectRef, pv: ObjectRef, policy: Policy) {
    source.name != "" && pv.name != "" ==>
      && (Key(source) in c.claims ==> c.claims[Key(source)].uid == source.uid)
      && (pv.name in c.volumes ==>
            var live := c.volumes[pv.name];
            && live.uid == pv.uid
            && (live.session == session ==>
                  && (Key(source) in c.claims ==>
                        var claim := c.claims[Key(source)];
                        && OwnerOrNone(At(claim.labels, SESSION), session)
                        && OwnerOrNone(At(claim.annotations, SESSION), session)
                        && OwnerOrNone(claim.volume, pv.name))
                  && (live.bind == Bound ==> live.claim == Some(source))
                  && live.role == SourceRole
                  && ValidPolicy(policy)))
  }

  const NO_METADATA: Metadata := Metadata(map[], map[], [])

  function RefOr(ref: Option<ObjectRef>, other: ObjectRef): ObjectRef {
    if ref.Some? then ref.value else other
  }

  function SourceRoleIn(phase: Phase): Role {
    if phase == Completed then RollbackRole else NoRole
  }

  function DestinationRoleIn(phase: Phase): Role {
    if phase == Completed then ActiveRole else if phase == RolledBack then RollbackRole else DestinationRole
  }

  /** The checkpoint as it is, or after an abort as recovered from the live objects. */
  function Resolved(c: Cluster, owner: string, phase: Phase, source: ObjectRef, temporaryNamespace: string,
                    planned: PlannedCopy, checkpoint: ClusterReservation, terminal: bool): Option<ClusterReservation> {
    if phase != Aborted then Some(checkpoint)
    else Recover(c, owner, source, QualifiedRef(planned.spec.destinationPVC, temporaryNamespace), checkpoint, terminal)
  }

  /** The staged destination is known, and is not the source volume itself. */
  predicate Resolvable(c: Cluster, owner: string, phase: Phase, source: ObjectRef, temporaryNamespace: string,
                       planned: PlannedCopy, checkpoint: ClusterReservation, terminal: bool) {
    phase == Aborted ==>
      var found := Resolved(c, owner, phase, source, temporaryNamespace, planned, checkpoint, terminal);
      found.Some? && !(found.value.pv.Some? && found.value.pv.value.uid == planned.spec.sourcePV.uid)
  }

  /** A volume can be prepared: its destination is known, and a source that nothing was reserved for can be given back. */
  predicate Preparable(c: Cluster, owner: string, phase: Phase, source: ObjectRef, temporaryNamespace: string,
                       planned: PlannedCopy, checkpoint: ClusterReservation, active: Option<ObjectRef>, terminal: bool) {
    && Resolvable(c, owner, phase, source, temporaryNamespace, planned, checkpoint, terminal)
    && (phase == Aborted && !checkpoint.reserved && active == None ==>
          SourceReleasable(c, owner, source, QualifiedRef(planned.spec.sourcePV, ""), planned.policy))
  }

  /** After completion the claim the workload runs on; the staged one in every other case. */
  function DestinationClaim(phase: Phase, found: ClusterReservation, active: Option<ObjectRef>): ObjectRef {
    if phase == Completed then RefOr(active, RefOr(found.pvc, NO_REF)) else RefOr(found.pvc, NO_REF)
  }

  /** What is promised about the source copy. */
  predicate SourceFor(c: Cluster, phase: Phase, source: ObjectRef, planned: PlannedCopy, active: Option<ObjectRef>,
                      deleteUnused: bool, s: ReclaimVolume) {
    && s.pv == QualifiedRef(planned.spec.sourcePV, "")
    && s.pvc == (if phase == Completed then NO_REF else RefOr(active, source))
    && (s.delete <==> phase == Completed && deleteUnused)
    && (s.skipMissing <==> phase == Aborted)
    && s.role == SourceRoleIn(phase) && s.metadata == planned.metadata && s.uncheckpointed == None
    && s.policy == (if phase == Completed && !deleteUnused then Retain
                    else ResolvedSourcePolicy(c, s.pv, planned.policy))
  }

  /** What is promised about the destination copy, but for whether it goes. */
  predicate DestinationFor(phase: Phase, planned: PlannedCopy, found: ClusterReservation, active: Option<ObjectRef>,
                           t: ReclaimVolume) {
    && t.pv == RefOr(found.pv, NO_REF)
    && t.pvc == DestinationClaim(phase, found, active)
    && !t.skipMissing
    && t.role == DestinationRoleIn(phase) && t.policy == ParsePolicy(found.policy)
    && t.metadata == (if phase == Completed then planned.metadata else NO_METADATA)
    && t.uncheckpointed == (if phase == Aborted && !found.reserved then found.pvc else None)
    && (phase == Aborted ==> t.pv == NO_REF || t.pv.uid != planned.spec.sourcePV.uid)
  }

  /** What is promised about a prepared pair: whose storage it names, that the in-use copy is kept, and when the other one goes. */
  predicate PairFor(c: Cluster, phase: Phase, source: ObjectRef, planned: PlannedCopy, found: ClusterReservation,
                    active: Option<ObjectRef>, deleteUnused: bool, pair: Pair) {
    && (pair.source.Some? <==> !(phase == Aborted && !found.reserved && active.None?))
    && (pair.source.Some? ==> SourceFor(c, phase, source, planned, active, deleteUnused, pair.source.value))
    && (pair.destination.Some? <==>
          DestinationClaim(phase, found, active).name != "" || RefOr(found.pv, NO_REF).name != "")
    && (pair.destination.Some? ==>
          && DestinationFor(phase, planned, found, active, pair.destination.value)
          && (pair.destination.value.delete <==>
                DeletesDestination(c, phase, source, found.reserved, active, deleteUnused)))
  }

  /** The staged destination, recovered and checked not to be the source volume itself. */
  method PrepareReserved(c: Cluster, id: string, source: ObjectRef, destination: ObjectRef, sourcePVUid: string,
                         checkpoint: ClusterReservation, deleteDestination: bool, terminal: bool)
    returns (ok: bool, recovered: ClusterReservation, copy: ReclaimVolume)
    ensures ok <==>
              var found := Recover(c, id, source, destination, checkpoint, terminal);
              found.Some? && !(found.value.pv.Some? && found.value.pv.value.uid == sourcePVUid)
    ensures ok ==>
              && Recover(c, id, source, destination, checkpoint, terminal) == Some(recovered)
              && copy.delete == deleteDestination && !copy.skipMissing && copy.role == DestinationRole
              && copy.pv == RefOr(recovered.pv, NO_REF) && copy.pvc == RefOr(recovered.pvc, NO_REF)
              && (copy.pv == NO_REF || copy.pv.uid != sourcePVUid)
              && copy.uncheckpointed == (if recovered.reserved then None else recovered.pvc)
              && copy.policy == ParsePolicy(recovered.policy) && copy.metadata == NO_METADATA
  {
    hide Recover, ParsePolicy;
    recovered := checkpoint;
    copy := ReclaimVolume(None, false, DestinationRole, NO_REF, NO_REF, NoPolicy, NO_METADATA, deleteDestination);
    var found := Recover(c, id, source, destination, checkpoint, terminal);
    if found == None {
      return false, recovered, copy;
    }
    if found.value.pv.Some? && found.value.pv.value.uid == sourcePVUid {
      return false, recovered, copy;
    }
    recovered := found.value;
    copy := copy.(policy := ParsePolicy(recovered.policy));
    if recovered.pvc.Some? {
      copy := copy.(pvc := recovered.pvc.value);
      if !recovered.reserved {
        copy := copy.(uncheckpointed := recovered.pvc);
      }
    }
    if recovered.pv.Some? {
      copy := copy.(pv := recovered.pv.value);
    }
    ok := true;
  }

  /** The source copy: the unused one after completion, the one to run on in every other case. */
  method PrepareSource(c: Cluster, phase: Phase, source: ObjectRef, planned: PlannedCopy,
                       active: Option<ObjectRef>, deleteUnused: bool)
    returns (src: ReclaimVolume)
    ensures SourceFor(c, phase, source, planned, active, deleteUnused, src)
  {
    hide ResolvedSourcePolicy;
    var pv := QualifiedRef(planned.spec.sourcePV, "");
    src := ReclaimVolume(None, phase == Aborted, NoRole, NO_REF, pv,
                         ResolvedSourcePolicy(c, pv, planned.policy), planned.metadata, false);
    if phase == Completed {
      src := src.(role := RollbackRole, delete := deleteUnused);
      if !src.delete {
        src := src.(policy := Retain);
      }
    } else {
      src := src.(pvc := if active.Some? then active.value else source);
    }
  }

  /** The staged destination: the in-use copy after completion, the one that may go in the other cases. */
  method PrepareDestination(c: Cluster, owner: string, phase: Phase, source: ObjectRef, temporaryNamespace: string,
                            planned: PlannedCopy, checkpoint: ClusterReservation, active: Option<ObjectRef>,
                            deletePolicy: bool, terminal: bool)
    returns (ok: bool, recovered: ClusterReservation, destination: ReclaimVolume)
    requires phase in TERMINAL_PHASES
    ensures ok <==> Resolvable(c, owner, phase, source, temporaryNamespace, planned, checkpoint, terminal)
    ensures ok ==>
              && recovered.reserved == checkpoint.reserved
              && Some(recovered) == Resolved(c, owner, phase, source, temporaryNamespace, planned, checkpoint, terminal)
    ensures ok ==>
              && DestinationFor(phase, planned, recovered, active, destination)
              && (destination.delete <==>
                    deletePolicy && (phase == RolledBack || (phase == Aborted && (active.Some? || Key(source) in c.claims))))
  {
    hide Recover, ParsePolicy;
    destination := ReclaimVolume(None, false, DestinationRole, NO_REF, NO_REF, ParsePolicy(checkpoint.policy), NO_METADATA, false);
    if checkpoint.pvc.Some? {
      destination := destination.(pvc := checkpoint.pvc.value);
    }
    if checkpoint.pv.Some? {
      destination := destination.(pv := checkpoint.pv.value);
    }
    recovered := checkpoint;
    ok := true;
    if phase == Aborted {
      var deleteUnused := deletePolicy;
      if active == None && Key(source) !in c.claims {
        deleteUnused := false;
      }
      ok, recovered, destination := PrepareReserved(
        c, owner, source, QualifiedRef(planned.spec.destinationPVC, temporaryNamespace),
        planned.spec.sourcePV.uid, checkpoint, deleteUnused, terminal);
      if ok {
        RecoveryIsStable(c, owner, source, QualifiedRef(planned.spec.destinationPVC, temporaryNamespace), checkpoint, terminal);
      }
    } else if phase == Completed {
      destination := destination.(role := ActiveRole, metadata := planned.metadata);
      if active.Some? {
        destination := destination.(pvc := active.value);
      }
    } else {
      destination := destination.(role := RollbackRole, delete := deletePolicy);
    }
  }

  method PrepareVolume(c: Cluster, owner: string, phase: Phase, sourceNamespace: string, temporaryNamespace: string,
                       planned: PlannedCopy, checkpoint: ClusterReservation, active: Option<ObjectRef>,
                       deletePolicy: bool, terminal: bool)
    returns (ok: bool, recovered: ClusterReservation, pair: Pair)
    requires phase in TERMINAL_PHASES
    ensures ok <==>
              Preparable(c, owner, phase, QualifiedRef(planned.spec.sourcePVC, sourceNamespace), temporaryNamespace,
                         planned, checkpoint, active, terminal)
    ensures ok ==>
              && recovered.reserved == checkpoint.reserved
              && Some(recovered) == Resolved(c, owner, phase, QualifiedRef(planned.spec.sourcePVC, sourceNamespace),
                                             temporaryNamespace, planned, checkpoint, terminal)
    ensures ok ==>
              PairFor(c, phase, QualifiedRef(planned.spec.sourcePVC, sourceNamespace), planned, recovered,
                      active, deletePolicy, pair)
  {
    hide SourceReleasable, Resolvable, Resolved, SourceFor, DestinationRoleIn, ParsePolicy;
    var source := QualifiedRef(planned.spec.sourcePVC, sourceNamespace);
    pair := Pair(None, None);
    var destination;
    ok, recovered, destination := PrepareDestination(
      c, owner, phase, source, temporaryNamespace, planned, checkpoint, active, deletePolicy, terminal);
    if !ok {
      return;
    }
    var src := PrepareSource(c, phase, source, planned, active, deletePolicy);
    if phase == Aborted && !checkpoint.reserved && active == None {
      destination := destination.(delete := false);
      if !SourceReleasable(c, owner, source, QualifiedRef(planned.spec.sourcePV, ""), planned.policy) {
        return false, checkpoint, pair;
      }
    } else {
      pair := pair.(source := Some(src));
    }
    if destination.pvc.name != "" || destination.pv.name != "" {
      pair := pair.(destination := Some(destination));
    }
  }

  // ------------------------------------------------------------ the copies

  function InUse(phase: Phase, pair: Pair): Option<ReclaimVolume> {
    if phase == Completed then pair.destination else pair.source
  }

  function Unused(phase: Phase, pair: Pair): Option<ReclaimVolume> {
    if phase == Completed then pair.source else pair.destination
  }

  /**
   What a prepared pair comes to, phase by phase. After completion only the source may
   go, after a rollback only the destination; after an abort the destination goes if
   the workload has a claim, active or the reserved source's own, to run on.
   */
  lemma PairMeans(c: Cluster, phase: Phase, source: ObjectRef, planned: PlannedCopy, found: ClusterReservation,
                  active: Option<ObjectRef>, deleteUnused: bool, pair: Pair)
    requires phase in TERMINAL_PHASES
    requires PairFor(c, phase, source, planned, found, active, deleteUnused, pair)
    ensures pair.source.Some? ==>
              var s := pair.source.value;
              && s.pv.name == planned.spec.sourcePV.name && s.pv.uid == planned.spec.sourcePV.uid
              && (s.delete <==> phase == Completed && deleteUnused)
              && (phase == Completed && !deleteUnused ==> s.policy == Retain)
              && (phase != Completed ==>
                    s.policy == if && s.pv.name in c.volumes && c.volumes[s.pv.name].uid == s.pv.uid
                                   && c.volumes[s.pv.name].original in {Retain, Delete, Recycle}
                                then c.volumes[s.pv.name].original else planned.policy)
    ensures phase != Aborted ==> pair.source.Some?
    ensures phase == Aborted && pair.source == None ==> !found.reserved && active == None
    ensures pair.destination.Some? ==>
              var t := pair.destination.value;
              && (found.pv.Some? ==> t.pv == found.pv.value) && t.policy == ParsePolicy(found.policy)
              && (phase == Completed ==> !t.delete && (active.Some? ==> t.pvc == active.value))
              && (phase == RolledBack ==> t.delete == deleteUnused)
              && (phase == Aborted ==>
                    (t.delete <==> deleteUnused && (active.Some? || (found.reserved && Key(source) in c.claims))))
  {
  }

  lemma PVOfFinal(c: Cluster, v: ReclaimVolume, finalize: bool, name: string)
    requires v.delete ==> !v.skipMissing && v.pv.name != ""
    ensures name in Final(c, v, finalize).volumes <==> name in c.volumes && !(v.delete && name == v.pv.name)
  {
  }

  /** Deleting the unused copy leaves a copy exactly when the in-use one is there, or the other is and is kept. */
  lemma SurvivingCopy(c: Cluster, phase: Phase, source: ObjectRef, planned: PlannedCopy, found: ClusterReservation,
                      active: Option<ObjectRef>, deleteUnused: bool, pair: Pair, finalize: bool)
    requires phase in TERMINAL_PHASES
    requires PairFor(c, phase, source, planned, found, active, deleteUnused, pair)
    requires pair.source.Some? && pair.destination.Some?
    requires pair.source.value.pv.name != pair.destination.value.pv.name
    requires pair.source.value.pv.name != "" && pair.destination.value.pv.name != ""
    ensures
      var end := Final(Final(c, pair.source.value, finalize), pair.destination.value, finalize);
      var deleted := if phase == Completed then deleteUnused
                     else DeletesDestination(c, phase, source, found.reserved, active, deleteUnused);
      (pair.source.value.pv.name in end.volumes || pair.destination.value.pv.name in end.volumes) <==>
        || InUse(phase, pair).value.pv.name in c.volumes
        || (Unused(phase, pair).value.pv.name in c.volumes && !deleted)
  {
    hide Final;
    var s, t := pair.source.value, pair.destination.value;
    var mid := Final(c, s, finalize);
    PVOfFinal(c, s, finalize, s.pv.name);
    PVOfFinal(c, s, finalize, t.pv.name);
    PVOfFinal(mid, t, finalize, s.pv.name);
    PVOfFinal(mid, t, finalize, t.pv.name);
  }

  // ------------------------------------------- the only copy, a case of it

  const SPEC: VolumeSpec :=
    VolumeSpec(LocalRef("data", "claim-1"), LocalRef("pv-old", "pv-1"), LocalRef("data-new", ""), 1, 1)

  const ACTIVE: ObjectRef := ObjectRef("apps", "data", "claim-3")

  /** The checkpoint of a completed migration. */
  const COMPLETED: ClusterVolume :=
    ClusterVolume(
      ClusterReservation("data", Some(ObjectRef("staging", "data-new", "claim-2")), Some(ObjectRef("", "pv-new", "pv-2")),
                         "Delete", true),
      Sync(true, false, 1),
      ClusterActivation(true, true, true, Some(ACTIVE), true, false))

  /** The claim in use is there and owned, the kept source too; the volume behind the claim has vanished. */
  const WITHOUT_DESTINATION: Cluster :=
    Cluster(
      map[Key(ACTIVE) := Claim("claim-3", false, "pv-new", map[SESSION := "session"], map[], [])],
      map["pv-old" := PV("pv-1", Retain, Released, None, MANAGED_BY_VALUE, "session", RollbackRole, "", Delete, "")])

  lemma CompletedIsValid()
    ensures ClusterVolumeValid(SPEC, COMPLETED, Completed, "apps", "staging")
  {
  }

  /**
   A policy can delete the only copy there is: the request that cleanup prepares for a
   completed migration whose destination volume has vanished passes every check, and
   the kept source goes.
   */
  method OnlyCopyDeleted() returns (pair: Pair, left: Cluster)
    ensures
      && PairFor(WITHOUT_DESTINATION, Completed, QualifiedRef(SPEC.sourcePVC, "apps"),
                 PlannedCopy(SPEC, Delete, NO_METADATA), COMPLETED.reservation, COMPLETED.activation.active, true, pair)
      && pair.source.Some? && pair.destination.Some?
      && Accepts(WITHOUT_DESTINATION, pair.source.value, "session", true)
      && Accepts(Final(WITHOUT_DESTINATION, pair.source.value, true), pair.destination.value, "session", true)
      && left == Final(Final(WITHOUT_DESTINATION, pair.source.value, true), pair.destination.value, true)
    ensures left.volumes == map[] && Key(ACTIVE) in left.claims
  {
    var ok, recovered;
    ok, recovered, pair := PrepareVolume(
      WITHOUT_DESTINATION, "session", Completed, "apps", "staging", PlannedCopy(SPEC, Delete, NO_METADATA),
      COMPLETED.reservation, COMPLETED.activation.active, true, true);
    var source := pair.source.value;
    var pv := WITHOUT_DESTINATION.volumes["pv-old"];
    assert source == ReclaimVolume(None, false, RollbackRole, NO_REF, ObjectRef("", "pv-old", "pv-1"), Delete, NO_METADATA, true);
    assert IdentityMatches(pv, source, "session") && PolicyMatches(pv, source);
    left := Final(Final(WITHOUT_DESTINATION, source, true), pair.destination.value, true);
  }
}
