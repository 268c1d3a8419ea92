/**
 Claims and volumes as the workflows see them, and what cleanup may do to one pair.
 Text that is only compared is kept as text; consumers, waiting and API errors are
 outcomes.
 */
module Storage {
  import opened Checkpoints
  import opened OfflineRecords

  datatype Policy = NoPolicy | Retain | Delete | Recycle | OtherPolicy

  datatype Role = NoRole | SourceRole | DestinationRole | ActiveRole | RollbackRole | RenameRole | OtherRole

  datatype BindPhase = Bound | Released | Available | OtherBindPhase

  datatype ClaimKey = ClaimKey(namespace: string, name: string)

  datatype Claim = Claim(
    uid: string,
    terminating: bool,
    volume: string,
    labels: map<string, string>,
    annotations: map<string, string>,
    owners: seq<string>)

  datatype PV = PV(
    uid: string,
    policy: Policy,
    bind: BindPhase,
    claim: Option<ObjectRef>,
    managedBy: string,
    session: string,
    role: Role,
    annotatedSession: string,
    original: Policy,
    paired: string)

  datatype Metadata = Metadata(labels: map<string, string>, annotations: map<string, string>, owners: seq<string>)

  datatype Cluster = Cluster(claims: map<ClaimKey, Claim>, volumes: map<string, PV>)

  const SESSION: string := "migrate.sealos.io/session"
  const ROLE: string := "migrate.sealos.io/role"
  const MANAGED_BY: string := "app.kubernetes.io/managed-by"
  const MANAGED_BY_VALUE: string := "pvc-migrate"
  const SOURCE_PVC_UID: string := "migrate.sealos.io/source-pvc-uid"
  const SOURCE_PV: string := "migrate.sealos.io/source-pv"
  const ROLLBACK_PV: string := "migrate.sealos.io/rollback-pv"

  function At(m: map<string, string>, key: string): string {
    if key in m then m[key] else ""
  }

  function Key(ref: ObjectRef): ClaimKey {
    ClaimKey(ref.namespace, ref.name)
  }

  const NO_REF: ObjectRef := ObjectRef("", "", "")

  predicate ValidPolicy(p: Policy) {
    p in {Retain, Delete, Recycle}
  }

  /** What cleanup resolved about one copy. */
  datatype ReclaimVolume = ReclaimVolume(
    uncheckpointed: Option<ObjectRef>,
    skipMissing: bool,
    role: Role,
    pvc: ObjectRef,
    pv: ObjectRef,
    policy: Policy,
    metadata: Metadata,
    delete: bool)

  datatype Result = Done | Refused | Interrupted

  // -------------------------------------------------- identity predicates

  /** A volume provisioned for the claim that no checkpoint has labelled yet. */
  predicate UncheckpointedMatches(pv: PV, claim: ObjectRef) {
    && claim.namespace != "" && claim.name != "" && claim.uid != ""
    && pv.claim == Some(claim)
    && pv.managedBy == "" && pv.session == "" && pv.role == NoRole && pv.annotatedSession == ""
    && pv.original == NoPolicy && pv.paired == "" && pv.policy == Delete
  }

  predicate Uncheckpointed(v: ReclaimVolume, pv: PV) {
    v.uncheckpointed.Some? && UncheckpointedMatches(pv, v.uncheckpointed.value)
  }

  predicate IdentityMatches(pv: PV, v: ReclaimVolume, session: string) {
    pv.uid == v.pv.uid && ((pv.session == session && pv.role == v.role) || Uncheckpointed(v, pv))
  }

  predicate PolicyMatches(pv: PV, v: ReclaimVolume) {
    && ValidPolicy(v.policy)
    && (if Uncheckpointed(v, pv) then v.policy == Delete
        else pv.original == v.policy && (pv.policy == Retain || pv.policy == v.policy))
  }

  predicate OwnedRole(r: Role) {
    r in {ActiveRole, SourceRole, RenameRole, DestinationRole, RollbackRole}
  }

  /** Already released, with the policy it should keep. */
  predicate Converged(pv: PV, policy: Policy) {
    pv.session == "" && pv.role == NoRole && pv.policy == policy && pv.original == NoPolicy
  }

  /** The preview of a finalization. */
  predicate Finalizable(pv: PV, uid: string, session: string, policy: Policy) {
    && policy != NoPolicy
    && pv.uid == uid
    && (Converged(pv, policy) || (pv.session == session && OwnedRole(pv.role)))
  }

  function FinalizedPV(pv: PV, policy: Policy): PV {
    if Converged(pv, policy) then pv
    else pv.(
      policy := policy,
      session := "",
      role := NoRole,
      managedBy := if pv.managedBy == MANAGED_BY_VALUE then "" else pv.managedBy,
      original := NoPolicy,
      paired := "")
  }

  predicate OwnerOrNone(owner: string, session: string) {
    owner == "" || owner == session
  }

  predicate ClaimOwned(claim: Claim, uid: string, session: string) {
    && claim.uid == uid
    && OwnerOrNone(At(claim.labels, SESSION), session)
    && OwnerOrNone(At(claim.annotations, SESSION), session)
  }

  /** Ownership metadata goes, the metadata of the source claim comes back. */
  function FinalizedClaim(claim: Claim, original: Metadata): Claim {
    claim.(
      labels := (claim.labels - {MANAGED_BY, SESSION, ROLE}) + original.labels,
      annotations := (claim.annotations - {SESSION, ROLLBACK_PV, SOURCE_PV, SOURCE_PVC_UID}) + original.annotations,
      owners := original.owners)
  }

  /** The recorded metadata names no other owner. */
  predicate OwnerFree(original: Metadata, session: string) {
    OwnerOrNone(At(original.labels, SESSION), session) && OwnerOrNone(At(original.annotations, SESSION), session)
  }

  // ----------------------------------------------------------- the verdict

  predicate ClaimAccepted(c: Cluster, v: ReclaimVolume, session: string) {
    v.pvc.uid != "" && Key(v.pvc) in c.claims ==>
      var claim := c.claims[Key(v.pvc)];
      ClaimOwned(claim, v.pvc.uid, session) && (v.delete ==> At(claim.labels, SESSION) == session)
  }

  predicate PVAccepted(c: Cluster, v: ReclaimVolume, session: string) {
    v.pv.name != "" ==>
      && v.policy != NoPolicy
      && (v.pv.name in c.volumes ==>
            var pv := c.volumes[v.pv.name];
            && (Finalizable(pv, v.pv.uid, session, v.policy) || (Uncheckpointed(v, pv) && pv.uid == v.pv.uid))
            && (v.role != NoRole && pv.session == session ==> pv.role == v.role)
            && (v.delete && pv.session != session ==> Uncheckpointed(v, pv) && pv.uid == v.pv.uid)
            && (pv.claim.Some? && pv.bind == Bound ==> v.pvc.uid != "" && pv.claim.value == v.pvc))
  }

  /** The dry run of one copy. */
  predicate Preview(c: Cluster, v: ReclaimVolume, session: string) {
    ClaimAccepted(c, v, session) && PVAccepted(c, v, session)
  }

  predicate DeletionAccepted(c: Cluster, v: ReclaimVolume, session: string) {
    v.pv.name != "" && v.pv.name in c.volumes ==>
      var pv := c.volumes[v.pv.name];
      && IdentityMatches(pv, v, session)
      && (pv.bind == Bound ==> pv.claim.Some? && v.pvc.namespace != "" && v.pvc.name != "")
      && pv.bind != OtherBindPhase
      && PolicyMatches(pv, v)
  }

  predicate FinalizationAccepted(c: Cluster, v: ReclaimVolume, session: string) {
    && (v.pvc.uid != "" ==> v.pvc.namespace != "" && v.pvc.name != "")
    && (v.pv.name != "" && v.pv.name in c.volumes ==>
          Finalizable(c.volumes[v.pv.name], v.pv.uid, session, v.policy))
  }

  predicate Skips(c: Cluster, v: ReclaimVolume, finalize: bool) {
    (v.skipMissing && v.pv.name !in c.volumes) || (!v.delete && !finalize)
  }

  predicate Accepts(c: Cluster, v: ReclaimVolume, session: string, finalize: bool) {
    Skips(c, v, finalize) ||
    (Preview(c, v, session)
     && if v.delete then DeletionAccepted(c, v, session) else FinalizationAccepted(c, v, session))
  }

  // ------------------------------------------------------------- the steps

  function ClaimRemoved(c: Cluster, v: ReclaimVolume): Cluster {
    if v.pvc.uid != "" then c.(claims := c.claims - {Key(v.pvc)}) else c
  }

  function PVRemoved(c: Cluster, v: ReclaimVolume): Cluster {
    if v.pv.name != "" then c.(volumes := c.volumes - {v.pv.name}) else c
  }

  function ClaimFinalized(c: Cluster, v: ReclaimVolume): Cluster {
    if v.pvc.uid != "" && Key(v.pvc) in c.claims
    then c.(claims := c.claims[Key(v.pvc) := FinalizedClaim(c.claims[Key(v.pvc)], v.metadata)])
    else c
  }

  function PVFinalized(c: Cluster, v: ReclaimVolume): Cluster {
    if v.pv.name != "" && v.pv.name in c.volumes
    then c.(volumes := c.volumes[v.pv.name := FinalizedPV(c.volumes[v.pv.name], v.policy)])
    else c
  }

  /** Where an uninterrupted run ends. */
  function Final(c: Cluster, v: ReclaimVolume, finalize: bool): Cluster {
    if Skips(c, v, finalize) then c
    else if v.delete then PVRemoved(ClaimRemoved(c, v), v)
    else PVFinalized(ClaimFinalized(c, v), v)
  }

  /** Any point of a deletion: the claim untouched, going or gone, the volume released, its policy restored, or gone. */
  predicate Deleting(c: Cluster, v: ReclaimVolume, d: Cluster) {
    && (v.pvc.uid == "" ==> d.claims == c.claims)
    && d.claims - {Key(v.pvc)} == c.claims - {Key(v.pvc)}
    && (Key(v.pvc) in d.claims ==>
          && Key(v.pvc) in c.claims
          && d.claims[Key(v.pvc)] == c.claims[Key(v.pvc)].(terminating := d.claims[Key(v.pvc)].terminating))
    && d.volumes - {v.pv.name} == c.volumes - {v.pv.name}
    && (v.pv.name == "" ==> d.volumes == c.volumes)
    && (v.pv.name in d.volumes ==>
          && v.pv.name in c.volumes
          && var was, now := c.volumes[v.pv.name], d.volumes[v.pv.name];
             && now == was.(bind := now.bind, policy := now.policy)
             && (now.bind == was.bind || (was.bind == Bound && now.bind == Released))
             && (now.policy == was.policy || now.policy == v.policy))
  }

  /** Where an interrupted run may stop. */
  predicate OnTheWay(c: Cluster, v: ReclaimVolume, finalize: bool, d: Cluster) {
    || d == c
    || (!Skips(c, v, finalize) &&
        if v.delete then Deleting(c, v, d)
        else d == ClaimFinalized(c, v) || d == Final(c, v, finalize))
  }

  // --------------------------------------------------------------- lemmas

  /** The preview accepts exactly the volumes the finalization accepts, and finalizing leaves one it would accept again. */
  lemma FinalizingTwice(pv: PV, uid: string, session: string, policy: Policy)
    requires session != "" && Finalizable(pv, uid, session, policy)
    ensures Finalizable(FinalizedPV(pv, policy), uid, session, policy)
    ensures FinalizedPV(FinalizedPV(pv, policy), policy) == FinalizedPV(pv, policy)
    ensures FinalizedPV(pv, policy).policy == policy && FinalizedPV(pv, policy).session == ""
  {
  }

  /**
   What giving a claim back means: the recorded owners, labels and annotations are on
   it, the workflow's own marks are not unless they were recorded, and everything else
   on the claim is as it was.
   */
  lemma ClaimGivenBack(claim: Claim, original: Metadata)
    ensures
      var done := FinalizedClaim(claim, original);
      && done.owners == original.owners
      && done.uid == claim.uid && done.terminating == claim.terminating && done.volume == claim.volume
      && (forall key <- original.labels :: key in done.labels && done.labels[key] == original.labels[key])
      && (forall key <- original.annotations ::
            key in done.annotations && done.annotations[key] == original.annotations[key])
      && (forall key <- [MANAGED_BY, SESSION, ROLE] :: key in done.labels ==> key in original.labels)
      && (forall key <- [SESSION, ROLLBACK_PV, SOURCE_PV, SOURCE_PVC_UID] ::
            key in done.annotations ==> key in original.annotations)
      && (forall key <- claim.labels :: key !in original.labels && key !in [MANAGED_BY, SESSION, ROLE] ==>
            key in done.labels && done.labels[key] == claim.labels[key])
      && (forall key <- claim.annotations ::
            key !in original.annotations && key !in [SESSION, ROLLBACK_PV, SOURCE_PV, SOURCE_PVC_UID] ==>
              key in done.annotations && done.annotations[key] == claim.annotations[key])
      && (forall key <- done.labels :: key in claim.labels || key in original.labels)
      && (forall key <- done.annotations :: key in claim.annotations || key in original.annotations)
  {
  }

  /** What giving a volume back means: it is the same volume, bound as it was, and no mark of an owned one is left. */
  lemma VolumeGivenBack(pv: PV, uid: string, session: string, policy: Policy)
    requires session != "" && Finalizable(pv, uid, session, policy)
    ensures
      var done := FinalizedPV(pv, policy);
      && done.uid == pv.uid == uid && done.bind == pv.bind && done.claim == pv.claim
      && done.policy == policy && done.session == "" && done.role == NoRole && done.original == NoPolicy
      && (pv.session == session ==>
            && done.paired == "" && done.managedBy != MANAGED_BY_VALUE
            && (pv.managedBy != MANAGED_BY_VALUE ==> done.managedBy == pv.managedBy))
      && (pv.session == "" ==> done == pv)
  {
  }

  lemma ClaimFinalizedTwice(claim: Claim, original: Metadata)
    ensures FinalizedClaim(FinalizedClaim(claim, original), original) == FinalizedClaim(claim, original)
  {
    var once := FinalizedClaim(claim, original);
    var twice := FinalizedClaim(once, original);
    assert twice.labels == once.labels;
    assert twice.annotations == once.annotations;
  }

  lemma FinalizedOwner(claim: Claim, original: Metadata, session: string)
    requires ClaimOwned(claim, claim.uid, session)
    ensures ClaimOwned(FinalizedClaim(claim, original), claim.uid, session) <==> OwnerFree(original, session)
  {
    var done := FinalizedClaim(claim, original);
    assert At(done.labels, SESSION) == At(original.labels, SESSION);
    assert At(done.annotations, SESSION) == At(original.annotations, SESSION);
  }

  lemma DeletingIsAccepted(c: Cluster, v: ReclaimVolume, session: string, d: Cluster)
    requires session != "" && v.delete && Deleting(c, v, d)
    requires Preview(c, v, session) && DeletionAccepted(c, v, session)
    ensures Preview(d, v, session) && DeletionAccepted(d, v, session)
  {
  }

  lemma DeletingEndsAlike(c: Cluster, v: ReclaimVolume, d: Cluster)
    requires Deleting(c, v, d)
    ensures PVRemoved(ClaimRemoved(d, v), v) == PVRemoved(ClaimRemoved(c, v), v)
  {
  }

  lemma DeletionSteps(c: Cluster, v: ReclaimVolume, session: string, finalize: bool, d: Cluster)
    requires session != "" && v.delete && !v.skipMissing
    requires Accepts(c, v, session, finalize) && OnTheWay(c, v, finalize, d)
    ensures Accepts(d, v, session, finalize) && Final(d, v, finalize) == Final(c, v, finalize)
  {
    hide Deleting, Preview, DeletionAccepted;
    if d != c {
      DeletingEndsAlike(c, v, d);
      DeletingIsAccepted(c, v, session, d);
    }
  }

  lemma FinalizationSteps(c: Cluster, v: ReclaimVolume, session: string, finalize: bool, d: Cluster)
    requires session != "" && !v.delete && !Skips(c, v, finalize) && OwnerFree(v.metadata, session)
    requires Accepts(c, v, session, finalize) && OnTheWay(c, v, finalize, d)
    ensures Accepts(d, v, session, finalize) && Final(d, v, finalize) == Final(c, v, finalize)
  {
    if v.pvc.uid != "" && Key(v.pvc) in c.claims {
      ClaimFinalizedTwice(c.claims[Key(v.pvc)], v.metadata);
      FinalizedOwner(c.claims[Key(v.pvc)], v.metadata, session);
    }
    if v.pv.name != "" && v.pv.name in c.volumes {
      FinalizingTwice(c.volumes[v.pv.name], v.pv.uid, session, v.policy);
    }
    assert Preview(d, v, session);
    assert ClaimFinalized(ClaimFinalized(c, v), v) == ClaimFinalized(c, v);
  }

  /**
   Reclaiming one copy may stop anywhere: run again with the same request, it is
   accepted and ends where an uninterrupted run ends.
   */
  lemma RerunConverges(c: Cluster, v: ReclaimVolume, session: string, finalize: bool, d: Cluster)
    requires session != "" && (if v.delete then !v.skipMissing else OwnerFree(v.metadata, session))
    requires Accepts(c, v, session, finalize) && OnTheWay(c, v, finalize, d)
    ensures Accepts(d, v, session, finalize) && Final(d, v, finalize) == Final(c, v, finalize)
  {
    if !Skips(c, v, finalize) {
      if v.delete {
        DeletionSteps(c, v, session, finalize, d);
      } else {
        FinalizationSteps(c, v, session, finalize, d);
      }
    }
  }

  /**
   The condition on the recorded metadata is exact: labels are recorded as found, so
   a plan made while the claim carried another session's label puts that label back
   and the next run refuses.
   */
  lemma RerunNeedsOwnerFreeMetadata(c: Cluster, v: ReclaimVolume, session: string)
    requires session != "" && !v.delete && !Skips(c, v, true) && Accepts(c, v, session, true)
    requires v.pvc.uid != "" && Key(v.pvc) in c.claims
    ensures Accepts(ClaimFinalized(c, v), v, session, true) <==> OwnerFree(v.metadata, session)
  {
    FinalizedOwner(c.claims[Key(v.pvc)], v.metadata, session);
    if OwnerFree(v.metadata, session) {
      FinalizationSteps(c, v, session, true, ClaimFinalized(c, v));
    }
  }

  /** A claim in use by this session, whose plan was made while it carried another one. */
  lemma RefusedAgain()
    ensures
      var ref := ObjectRef("apps", "data", "claim-1");
      var claim := Claim("claim-1", false, "pv", map[SESSION := "session"], map[], []);
      var c := Cluster(map[Key(ref) := claim], map[]);
      var v := ReclaimVolume(None, false, ActiveRole, ref, ObjectRef("", "pv", "pv-1"), Retain,
                             Metadata(map[SESSION := "other"], map[], []), false);
      Accepts(c, v, "session", true) && !Accepts(ClaimFinalized(c, v), v, "session", true)
  {
    var ref := ObjectRef("apps", "data", "claim-1");
    var claim := Claim("claim-1", false, "pv", map[SESSION := "session"], map[], []);
    var v := ReclaimVolume(None, false, ActiveRole, ref, ObjectRef("", "pv", "pv-1"), Retain,
                           Metadata(map[SESSION := "other"], map[], []), false);
    RerunNeedsOwnerFreeMetadata(Cluster(map[Key(ref) := claim], map[]), v, "session");
  }

  /**
   A kept copy passes the dry run and is then refused exactly when its volume is one
   no checkpoint has labelled and is to be kept under another policy than its own.
   */
  lemma PreviewGap(c: Cluster, v: ReclaimVolume, session: string)
    requires session != "" && !v.delete && !Skips(c, v, true) && Preview(c, v, session)
    requires v.pvc.uid != "" ==> v.pvc.namespace != "" && v.pvc.name != ""
    ensures !Accepts(c, v, session, true) <==>
              && v.pv.name != "" && v.pv.name in c.volumes
              && Uncheckpointed(v, c.volumes[v.pv.name]) && v.policy != Delete
  {
  }

  /** A volume provisioned for the staged claim just before the abort, and protected because it is unclaimed. */
  lemma PreviewedAndRefused()
    ensures
      var ref := ObjectRef("staging", "data-new", "claim-2");
      var claim := Claim("claim-2", true, "pv-new", map[SESSION := "session"], map[], []);
      var pv := PV("pv-2", Delete, Bound, Some(ref), "", "", NoRole, "", NoPolicy, "");
      var c := Cluster(map[Key(ref) := claim], map["pv-new" := pv]);
      var v := ReclaimVolume(Some(ref), false, DestinationRole, ref, ObjectRef("", "pv-new", "pv-2"), Retain,
                             Metadata(map[], map[], []), false);
      Preview(c, v, "session") && !Accepts(c, v, "session", true)
  {
    var ref := ObjectRef("staging", "data-new", "claim-2");
    var claim := Claim("claim-2", true, "pv-new", map[SESSION := "session"], map[], []);
    var pv := PV("pv-2", Delete, Bound, Some(ref), "", "", NoRole, "", NoPolicy, "");
    var v := ReclaimVolume(Some(ref), false, DestinationRole, ref, ObjectRef("", "pv-new", "pv-2"), Retain,
                           Metadata(map[], map[], []), false);
    PreviewGap(Cluster(map[Key(ref) := claim], map["pv-new" := pv]), v, "session");
  }
}
