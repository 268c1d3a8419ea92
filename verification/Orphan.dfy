/**
 Recovery of storage whose workflow record was lost. The relationship between source
 and staged storage is rebuilt from live labels; the source claim and its volume are
 only released, never removed.
 */
module Orphan {
  import opened Checkpoints
  import opened OfflineRecords
  import opened Storage

  /** A live object and the version every update moves; a reference without one has version zero. */
  datatype Live<T> = Live(data: T, version: nat)

  datatype ClaimRef = ClaimRef(key: ClaimKey, uid: string, version: nat)
  datatype PVRef = PVRef(name: string, uid: string, version: nat)

  datatype Pod = Pod(namespace: string, name: string, session: string)

  datatype Plan =
    | NotReady
    | RecordsOnly
    | PreActivation(
        source: ClaimRef, sourcePV: PVRef,
        destination: Option<ClaimRef>, destinationPV: Option<PVRef>, destinationPolicy: Policy)
    | PostActivation(source: ClaimRef, activePV: PVRef, rollbackPV: PVRef, rollbackPolicy: Policy)

  type Claims = map<ClaimKey, Live<Claim>>
  type Volumes = map<string, Live<PV>>

  predicate ClaimCarries(c: Claim, session: string) {
    At(c.labels, SESSION) == session || At(c.annotations, SESSION) == session
  }

  predicate Foreign(c: Claim, session: string) {
    !OwnerOrNone(At(c.labels, SESSION), session) || !OwnerOrNone(At(c.annotations, SESSION), session)
  }

  predicate DestinationClaim(c: Claim, session: string) {
    && At(c.labels, MANAGED_BY) == MANAGED_BY_VALUE
    && At(c.labels, SESSION) == session
    && At(c.labels, ROLE) == "destination"
  }

  predicate OwnedPV(pv: PV, session: string, role: Role) {
    pv.managedBy == MANAGED_BY_VALUE && pv.session == session && pv.role == role
  }

  /** The recorded policy, and nothing but it or Retain in force. */
  predicate PolicyKept(pv: PV, policy: Policy) {
    ValidPolicy(policy) && (pv.policy == Retain || pv.policy == policy)
  }

  /** Still the staged claim, at the version planned. */
  predicate StagedClaim(live: Live<Claim>, session: string, sourceUid: string, ref: ClaimRef) {
    && live.data.uid == ref.uid && live.version == ref.version
    && DestinationClaim(live.data, session)
    && At(live.data.annotations, SESSION) == session
    && At(live.data.annotations, SOURCE_PVC_UID) == sourceUid
  }

  /** Still the rollback volume, at the version planned, released and on a policy that leads to the recorded one. */
  predicate RollbackDeletable(live: Live<PV>, session: string, ref: PVRef, policy: Policy) {
    && live.data.uid == ref.uid && live.version == ref.version
    && live.data.session == session && live.data.role == RollbackRole
    && live.data.bind in {Released, Available}
    && live.data.original == policy && PolicyKept(live.data, policy)
  }

  /** Still the staged volume, whose claim is gone or going; its version may have moved when the claim went. */
  predicate StagedDeletable(live: Live<PV>, claims: Claims, session: string, ref: PVRef, policy: Policy) {
    && live.data.uid == ref.uid && live.data.session == session && live.data.role == DestinationRole
    && live.data.bind != OtherBindPhase
    && (live.data.bind == Bound ==>
          && live.data.claim.Some?
          && (Key(live.data.claim.value) in claims ==> claims[Key(live.data.claim.value)].data.terminating))
    && live.data.original == policy && PolicyKept(live.data, policy)
  }

  function ReleasedClaim(c: Claim): Claim {
    c.(labels := c.labels - (if At(c.labels, MANAGED_BY) == MANAGED_BY_VALUE then {MANAGED_BY, SESSION, ROLE} else {SESSION, ROLE}),
       annotations := c.annotations - {SESSION, ROLLBACK_PV, SOURCE_PV, SOURCE_PVC_UID})
  }

  const MARKS: seq<string> := [MANAGED_BY, SESSION, ROLE, ROLLBACK_PV, SOURCE_PV, SOURCE_PVC_UID]

  /** The same claim, without marks it may have had. */
  predicate GivenUp(was: Claim, now: Claim) {
    && now == was.(labels := now.labels, annotations := now.annotations)
    && now.labels.Keys <= was.labels.Keys && now.annotations.Keys <= was.annotations.Keys
    && (forall k <- was.labels | k !in MARKS :: k in now.labels && now.labels[k] == was.labels[k])
    && (forall k <- was.annotations | k !in MARKS :: k in now.annotations && now.annotations[k] == was.annotations[k])
  }

  /** No session owns or has staged the claim, and no rollback is noted on it. */
  predicate Unmarked(c: Claim) {
    && At(c.labels, SESSION) == "" && At(c.labels, ROLE) == "" && At(c.labels, MANAGED_BY) != MANAGED_BY_VALUE
    && At(c.annotations, SESSION) == "" && At(c.annotations, ROLLBACK_PV) == ""
  }

  function ReleasedPV(pv: PV): PV {
    pv.(policy := pv.original, managedBy := "", session := "", role := NoRole, original := NoPolicy, paired := "")
  }

  /** The source claim, and the volume bound to it under the given role. */
  predicate Anchored(claims: Claims, volumes: Volumes, session: string, source: ClaimRef, pv: PVRef, role: Role) {
    && source.key in claims && claims[source.key].version == source.version
    && claims[source.key].data.uid == source.uid && claims[source.key].data.volume == pv.name
    && pv.name in volumes && volumes[pv.name].version == pv.version
    && volumes[pv.name].data.uid == pv.uid
    && volumes[pv.name].data.session == session && volumes[pv.name].data.role == role
    && ValidPolicy(volumes[pv.name].data.original)
  }

  predicate Versioned(claims: Claims, volumes: Volumes) {
    && (forall key <- claims :: claims[key].version > 0)
    && (forall name <- volumes :: volumes[name].version > 0)
  }

  /** A claim staged for this very source. */
  predicate StagedFor(c: Claim, session: string, sourceUid: string) {
    DestinationClaim(c, session) && At(c.annotations, SOURCE_PVC_UID) == sourceUid
  }

  /** Some staged claim of the session names the volume. */
  predicate Referenced(claims: Claims, session: string, name: string) {
    exists k <- claims :: DestinationClaim(claims[k].data, session) && claims[k].data.volume == name
  }

  /** A staged volume that no staged claim names. */
  predicate Unclaimed(claims: Claims, volumes: Volumes, session: string, name: string)
    requires name in volumes
  {
    OwnedPV(volumes[name].data, session, DestinationRole) && !Referenced(claims, session, name)
  }

  /** At most one claim is staged for the source, and it is marked in full. */
  predicate OneStaged(claims: Claims, session: string, sourceUid: string) {
    forall j, k | j in claims && k in claims ::
      StagedFor(claims[j].data, session, sourceUid) && StagedFor(claims[k].data, session, sourceUid) ==>
        j == k && At(claims[k].data.annotations, SESSION) == session && claims[k].data.uid != ""
  }

  /**
   Nothing staged for the source is left out: its staged claim is listed, with the volume
   of that claim if it is there, and without such a claim the staged volume that no
   claim names.
   */
  predicate Listed(claims: Claims, volumes: Volumes, session: string, sourceUid: string,
                   destination: Option<ClaimRef>, destinationPV: Option<string>) {
    && (forall k <- claims | StagedFor(claims[k].data, session, sourceUid) ::
          && destination == Some(ClaimRef(k, claims[k].data.uid, claims[k].version))
          && (claims[k].data.volume != "" && claims[k].data.volume in volumes ==>
                destinationPV == Some(claims[k].data.volume)))
    && ((forall k <- claims :: !StagedFor(claims[k].data, session, sourceUid)) ==>
          forall n <- volumes | Unclaimed(claims, volumes, session, n) :: destinationPV == Some(n))
  }

  /** A claim that is listed is the staged one, with its volume; else the volume is one that no claim names. */
  predicate StagedClaimOr(claims: Claims, volumes: Volumes, session: string, sourceUid: string,
                          destination: Option<ClaimRef>, destinationPV: Option<string>) {
    if destination.Some? && destination.value.version > 0
    then && destination.value.key in claims
         && StagedClaim(claims[destination.value.key], session, sourceUid, destination.value)
         && (destinationPV.Some? ==> destinationPV.value == claims[destination.value.key].data.volume != "")
    else && (destination.Some? ==> destinationPV.Some?)
         && (destinationPV.Some? && destinationPV.value in volumes ==> Unclaimed(claims, volumes, session, destinationPV.value))
  }

  /** And nothing else is listed. */
  predicate OnlyStaged(claims: Claims, volumes: Volumes, session: string, sourceUid: string,
                       destination: Option<ClaimRef>, destinationPV: Option<PVRef>, policy: Policy) {
    && StagedClaimOr(claims, volumes, session, sourceUid, destination, NameOf(destinationPV))
    && (destinationPV.Some? ==>
          && destinationPV.value.name in volumes
          && var live := volumes[destinationPV.value.name];
             && destinationPV.value == PVRef(destinationPV.value.name, live.data.uid, live.version)
             && OwnedPV(live.data, session, DestinationRole)
             && policy == live.data.original && PolicyKept(live.data, policy))
  }

  /** A finished plan has removed the staged claim with its pods, and the staged volume under its own policy. */
  predicate DestinationGone(plan: Plan, claims: Claims, volumes: Volumes, pods: set<Pod>, session: string,
                            gone: map<string, Policy>)
    requires plan.PreActivation?
  {
    && (plan.destination.Some? ==>
          && plan.destination.value.key !in claims
          && forall pod <- pods :: !(pod.session == session && pod.namespace == plan.destination.value.key.namespace))
    && (plan.destinationPV.Some? ==>
          && plan.destinationPV.value.name !in volumes
          && plan.destinationPV.value.name in gone && gone[plan.destinationPV.value.name] == plan.destinationPolicy)
  }

  /** Whatever was staged for the source is gone, its volumes deleted under the policy they had before the workflow. */
  predicate StagedCleared(claims: Claims, volumes: Volumes, session: string, sourceUid: string,
                          after: Claims, left: Volumes, gone: map<string, Policy>) {
    && (forall k <- claims | StagedFor(claims[k].data, session, sourceUid) ::
          && k !in after
          && (claims[k].data.volume != "" && claims[k].data.volume in volumes ==>
                Removed(volumes, claims[k].data.volume, left, gone)))
    && ((forall k <- claims :: !StagedFor(claims[k].data, session, sourceUid)) ==>
          forall n <- volumes | Unclaimed(claims, volumes, session, n) :: Removed(volumes, n, left, gone))
  }

  predicate Removed(volumes: Volumes, name: string, left: Volumes, gone: map<string, Policy>)
    requires name in volumes
  {
    name !in left && name in gone && gone[name] == volumes[name].data.original
  }

  /** The volume that the active one was paired with is gone, deleted under the policy it had before the workflow. */
  predicate RollbackCleared(volumes: Volumes, active: string, left: Volumes, gone: map<string, Policy>) {
    && active in volumes
    && var name := volumes[active].data.paired;
       name !in left && (name in volumes ==> Removed(volumes, name, left, gone))
  }

  /** The rollback volume is the one the active volume is paired with, and if it is there it is paired back. */
  predicate Paired(volumes: Volumes, session: string, active: string, rollback: PVRef, policy: Policy)
    requires active in volumes
  {
    && rollback.name != "" && rollback.name == volumes[active].data.paired
    && (rollback.name in volumes ==>
          var live := volumes[rollback.name];
          && rollback == PVRef(rollback.name, live.data.uid, live.version)
          && live.data.paired == active && policy == live.data.original
          && RollbackDeletable(live, session, rollback, policy))
  }

  /** Nothing the tool manages carries the session. */
  predicate NothingManaged(claims: Claims, volumes: Volumes, session: string) {
    && (forall name <- volumes :: !(volumes[name].data.managedBy == MANAGED_BY_VALUE && volumes[name].data.session == session))
    && (forall k <- claims ::
          !(At(claims[k].data.labels, MANAGED_BY) == MANAGED_BY_VALUE && At(claims[k].data.labels, SESSION) == session))
  }

  function NameOf(ref: Option<PVRef>): Option<string> {
    if ref.Some? then Some(ref.value.name) else None
  }

  /** The claims and volumes that a plan may touch. */
  function ClaimsOf(plan: Plan): set<ClaimKey> {
    match plan
    case PreActivation(source, _, destination, _, _) =>
      {source.key} + if destination.Some? then {destination.value.key} else {}
    case PostActivation(source, _, _, _) => {source.key}
    case _ => {}
  }

  function VolumesOf(plan: Plan): set<string> {
    match plan
    case PreActivation(_, sourcePV, _, destinationPV, _) =>
      {sourcePV.name} + if destinationPV.Some? then {destinationPV.value.name} else {}
    case PostActivation(_, activePV, rollbackPV, _) => {activePV.name, rollbackPV.name}
    case _ => {}
  }

  /** The source claim is the session's, bound to a volume of the session that is on a policy it can go back from. */
  predicate OwnedSource(claims: Claims, volumes: Volumes, session: string, key: ClaimKey) {
    && key in claims && claims[key].data.uid != "" && !Foreign(claims[key].data, session)
    && claims[key].data.volume != "" && claims[key].data.volume in volumes
    && var pv := volumes[claims[key].data.volume].data;
       && pv.session == session && pv.claim == Some(ObjectRef(key.namespace, key.name, claims[key].data.uid))
       && PolicyKept(pv, pv.original)
  }

  /** The switch had been made: the claim runs on the active volume, paired with a rollback volume. */
  predicate AfterActivation(claims: Claims, volumes: Volumes, session: string, key: ClaimKey) {
    && OwnedSource(claims, volumes, session, key)
    && var active, noted := volumes[claims[key].data.volume].data, At(claims[key].data.annotations, ROLLBACK_PV);
       && active.role == ActiveRole && active.paired != "" && noted in {"", active.paired}
       && (active.paired in volumes ==>
             var rollback := volumes[active.paired].data;
             && rollback.session == session && rollback.role == RollbackRole && rollback.paired == claims[key].data.volume
             && rollback.bind in {Released, Available} && PolicyKept(rollback, rollback.original))
  }

  /** The plain state before the switch: the source volume, and at most one claim staged for it with its own volume. */
  predicate BeforeActivation(claims: Claims, volumes: Volumes, session: string, key: ClaimKey) {
    && OwnedSource(claims, volumes, session, key)
    && volumes[claims[key].data.volume].data.role == SourceRole && volumes[claims[key].data.volume].data.paired == ""
    && At(claims[key].data.annotations, ROLLBACK_PV) == ""
    && OneStaged(claims, session, claims[key].data.uid)
    && (forall k <- claims :: DestinationClaim(claims[k].data, session) ==>
          && StagedFor(claims[k].data, session, claims[key].data.uid)
          && (claims[k].data.volume != "" && claims[k].data.volume in volumes ==>
                var pv := volumes[claims[k].data.volume].data;
                && OwnedPV(pv, session, DestinationRole) && PolicyKept(pv, pv.original)
                && pv.claim == Some(ObjectRef(k.namespace, k.name, claims[k].data.uid))))
    && (forall n <- volumes :: !Unclaimed(claims, volumes, session, n))
  }

  /** The marks on the claim are this session's, or there is none that would be left behind. */
  predicate Releasable(c: Claim, session: string) {
    && !Foreign(c, session)
    && (ClaimCarries(c, session) || (At(c.labels, MANAGED_BY) == "" && Unmarked(c)))
  }

  /** What is listed can go: no unmarked claim is in the way, and the volume is free once the listed claim is. */
  predicate Removable(claims: Claims, volumes: Volumes, plan: Plan)
    requires plan.PreActivation?
  {
    && (plan.destination.Some? && plan.destination.value.version == 0 ==> plan.destination.value.key !in claims)
    && (plan.destinationPV.Some? && plan.destinationPV.value.name in volumes ==>
          var pv := volumes[plan.destinationPV.value.name].data;
          && pv.bind != OtherBindPhase
          && (pv.bind == Bound ==>
                && pv.claim.Some?
                && (|| Key(pv.claim.value) !in claims
                    || (plan.destination.Some? && Key(pv.claim.value) == plan.destination.value.key))))
  }

  predicate KnownBinds(volumes: Volumes, session: string) {
    forall n <- volumes :: OwnedPV(volumes[n].data, session, DestinationRole) ==> volumes[n].data.bind != OtherBindPhase
  }

  /** The states a lost record leaves behind when nothing else has interfered. */
  predicate Plain(claims: Claims, volumes: Volumes, session: string, key: ClaimKey) {
    || (key !in claims && NothingManaged(claims, volumes, session))
    || (&& key in claims && Releasable(claims[key].data, session)
        && (|| AfterActivation(claims, volumes, session, key)
            || (&& BeforeActivation(claims, volumes, session, key)
                && KnownBinds(volumes, session))))
  }

  /** A plan that the plain state gets can be carried out. */
  lemma PlainIsCarriedOut(claims: Claims, volumes: Volumes, session: string, key: ClaimKey, plan: Plan)
    requires Plain(claims, volumes, session, key) && PlanSafe(claims, volumes, session, key, plan)
    requires plan.RecordsOnly? <==> key !in claims && NothingManaged(claims, volumes, session)
    requires plan.PostActivation? <==> AfterActivation(claims, volumes, session, key)
    requires BeforeActivation(claims, volumes, session, key) ==> plan.PreActivation?
    ensures plan != NotReady && (key in claims ==> Releasable(claims[key].data, session))
    ensures plan.PreActivation? ==> Removable(claims, volumes, plan)
  {
    hide BeforeActivation, AfterActivation, NothingManaged, PlanSafe, Removable, Releasable;
    if plan.PreActivation? {
      PlanAnchors(claims, volumes, session, key, plan);
      PlainIsRemovable(claims, volumes, session, key, plan);
    }
  }

  lemma PlainIsRemovable(claims: Claims, volumes: Volumes, session: string, key: ClaimKey, plan: Plan)
    requires plan.PreActivation? && PlanSafe(claims, volumes, session, key, plan)
    requires BeforeActivation(claims, volumes, session, key)
    requires KnownBinds(volumes, session)
    ensures Removable(claims, volumes, plan)
  {
    hide Listed, OneStaged, Unclaimed, Foreign, PolicyKept, Anchored;
  }

  /** The session has exactly one source volume. */
  predicate Single(volumes: Volumes, session: string) {
    exists n <- volumes ::
      && OwnedPV(volumes[n].data, session, SourceRole)
      && forall m <- volumes :: OwnedPV(volumes[m].data, session, SourceRole) ==> m == n
  }

  /** Some claim of the session is staged for another source. */
  predicate StagedElsewhere(claims: Claims, session: string, sourceUid: string) {
    exists k <- claims :: DestinationClaim(claims[k].data, session) && !StagedFor(claims[k].data, session, sourceUid)
  }

  /** A staged volume that may be planned for deletion together with its claim. */
  predicate Matches(pv: PV, session: string, key: ClaimKey, uid: string) {
    && OwnedPV(pv, session, DestinationRole) && PolicyKept(pv, pv.original)
    && pv.claim == Some(ObjectRef(key.namespace, key.name, uid))
  }

  /**
   When a plan before the switch is made: at most one claim is staged for the source,
   and it and its volume name each other; without one, a staged volume that no claim
   names must be the only one, in a session with a single source.
   */
  predicate PlanReady(claims: Claims, volumes: Volumes, session: string, key: ClaimKey) {
    && OwnedSource(claims, volumes, session, key)
    && var uid, source := claims[key].data.uid, volumes[claims[key].data.volume].data;
       && source.role == SourceRole && source.paired == "" && At(claims[key].data.annotations, ROLLBACK_PV) == ""
       && OneStaged(claims, session, uid)
       && !(Single(volumes, session) && StagedElsewhere(claims, session, uid))
       && (forall k <- claims | StagedFor(claims[k].data, session, uid) ::
             claims[k].data.volume != "" && claims[k].data.volume in volumes ==>
               Matches(volumes[claims[k].data.volume].data, session, k, claims[k].data.uid))
       && ((forall k <- claims :: !StagedFor(claims[k].data, session, uid)) ==>
             forall n <- volumes | Unclaimed(claims, volumes, session, n) ::
               && Single(volumes, session) && PolicyKept(volumes[n].data, volumes[n].data.original)
               && forall m <- volumes | Unclaimed(claims, volumes, session, m) :: m == n)
  }

  /**
   A recovery stopped after the staged claim went and before its volume did can be
   planned again if and only if the session has a single source: the volume that is
   left cannot be placed otherwise.
   */
  lemma InterruptedRecovery(claims: Claims, volumes: Volumes, session: string, key: ClaimKey, k: ClaimKey)
    requires BeforeActivation(claims, volumes, session, key) && session != ""
    requires k in claims && StagedFor(claims[k].data, session, claims[key].data.uid)
    requires claims[k].data.volume != "" && claims[k].data.volume in volumes
    ensures PlanReady(claims - {k}, volumes, session, key) <==> Single(volumes, session)
  {
    hide StagedFor, Foreign, PolicyKept;
    var left, name, uid := claims - {k}, claims[k].data.volume, claims[key].data.uid;
    StagedIsMarked(claims[k].data, session, uid);
    assert k != key;
    assert OwnedSource(left, volumes, session, key);
    forall j | j in left ensures !DestinationClaim(left[j].data, session) {
      NoOtherStaged(claims, volumes, session, key, k, j);
    }
    forall j | j in left ensures !StagedFor(left[j].data, session, uid) {
      if StagedFor(left[j].data, session, uid) {
        StagedIsMarked(left[j].data, session, uid);
      }
    }
    forall n | n in volumes ensures Unclaimed(left, volumes, session, n) <==> n == name {
      OnlyVolume(claims, volumes, session, key, k, n);
      assert !Referenced(left, session, n);
    }
    assert Unclaimed(left, volumes, session, name);
  }

  lemma NoOtherStaged(claims: Claims, volumes: Volumes, session: string, key: ClaimKey, k: ClaimKey, j: ClaimKey)
    requires BeforeActivation(claims, volumes, session, key) && j in claims && j != k
    requires k in claims && StagedFor(claims[k].data, session, claims[key].data.uid)
    ensures !DestinationClaim(claims[j].data, session)
  {
    hide StagedFor, Foreign, PolicyKept;
  }

  lemma StagedIsMarked(c: Claim, session: string, sourceUid: string)
    ensures StagedFor(c, session, sourceUid) ==> DestinationClaim(c, session)
  {
  }

  /** Before the switch, the staged volume is the one of the staged claim. */
  lemma OnlyVolume(claims: Claims, volumes: Volumes, session: string, key: ClaimKey, k: ClaimKey, n: string)
    requires BeforeActivation(claims, volumes, session, key) && n in volumes
    requires k in claims && StagedFor(claims[k].data, session, claims[key].data.uid)
    requires claims[k].data.volume != "" && claims[k].data.volume in volumes
    ensures OwnedPV(volumes[n].data, session, DestinationRole) <==> n == claims[k].data.volume
  {
    hide Foreign, PolicyKept;
    if OwnedPV(volumes[n].data, session, DestinationRole) {
      assert !Unclaimed(claims, volumes, session, n);
      var j :| j in claims && DestinationClaim(claims[j].data, session) && claims[j].data.volume == n;
      assert StagedFor(claims[j].data, session, claims[key].data.uid);
      assert j == k;
    }
  }

  const FIRST: ClaimKey := ClaimKey("apps", "data-0")
  const STAGED: ClaimKey := ClaimKey("apps", "data-0-new")

  /** Two sources of one session; the second has been cleaned of its staged storage already. */
  const TWO_SOURCES: Volumes := map[
    "pv-0" := Live(PV("pv-uid-0", Retain, Bound, Some(ObjectRef("apps", "data-0", "uid-0")),
                      MANAGED_BY_VALUE, "session", SourceRole, "", Delete, ""), 1),
    "pv-1" := Live(PV("pv-uid-1", Retain, Bound, Some(ObjectRef("apps", "data-1", "uid-1")),
                      MANAGED_BY_VALUE, "session", SourceRole, "", Delete, ""), 1),
    "pv-new" := Live(PV("pv-uid-2", Retain, Bound, Some(ObjectRef("apps", "data-0-new", "uid-2")),
                        MANAGED_BY_VALUE, "session", DestinationRole, "", Delete, ""), 1)]

  const STAGED_LABELS: map<string, string> := map[MANAGED_BY := MANAGED_BY_VALUE, SESSION := "session", ROLE := "destination"]

  const STAGED_FOR_FIRST: Claims := map[
    FIRST := Live(Claim("uid-0", false, "pv-0", map[], map[SESSION := "session"], []), 1),
    STAGED := Live(Claim("uid-2", false, "pv-new", STAGED_LABELS, map[SESSION := "session", SOURCE_PVC_UID := "uid-0"], []), 1)]

  lemma CaseMarks()
    ensures !Foreign(STAGED_FOR_FIRST[FIRST].data, "session") && !DestinationClaim(STAGED_FOR_FIRST[FIRST].data, "session")
    ensures At(STAGED_FOR_FIRST[FIRST].data.annotations, ROLLBACK_PV) == ""
    ensures DestinationClaim(STAGED_FOR_FIRST[STAGED].data, "session")
    ensures StagedFor(STAGED_FOR_FIRST[STAGED].data, "session", "uid-0")
    ensures At(STAGED_FOR_FIRST[STAGED].data.annotations, SESSION) == "session"
  {
  }

  lemma CaseIsBefore()
    ensures BeforeActivation(STAGED_FOR_FIRST, TWO_SOURCES, "session", FIRST)
  {
    hide Foreign, DestinationClaim, StagedFor, At;
    CaseMarks();
    var claims, volumes := STAGED_FOR_FIRST, TWO_SOURCES;
    CaseIsOwned();
    assert OneStaged(claims, "session", "uid-0") by {
      if StagedFor(claims[FIRST].data, "session", "uid-0") {
        StagedIsMarked(claims[FIRST].data, "session", "uid-0");
      }
    }
    assert Referenced(claims, "session", "pv-new");
    assert forall n <- volumes :: !Unclaimed(claims, volumes, "session", n);
  }

  lemma CaseIsOwned()
    ensures OwnedSource(STAGED_FOR_FIRST, TWO_SOURCES, "session", FIRST)
  {
    hide Foreign, At;
    CaseMarks();
  }

  lemma CaseHasTwo()
    ensures !Single(TWO_SOURCES, "session")
  {
    var volumes := TWO_SOURCES;
    assert OwnedPV(volumes["pv-0"].data, "session", SourceRole) && OwnedPV(volumes["pv-1"].data, "session", SourceRole);
  }

  /** A recovery of the first of them can be planned, and once its staged claim alone is gone it cannot. */
  lemma RecoveryStopsWithTwoSources()
    ensures PlanReady(STAGED_FOR_FIRST, TWO_SOURCES, "session", FIRST)
    ensures !PlanReady(STAGED_FOR_FIRST - {STAGED}, TWO_SOURCES, "session", FIRST)
  {
    hide BeforeActivation, PlanReady, Single, StagedFor, At;
    CaseMarks();
    CaseIsBefore();
    CaseHasTwo();
    BeforeIsReady(STAGED_FOR_FIRST, TWO_SOURCES, "session", FIRST);
    InterruptedRecovery(STAGED_FOR_FIRST, TWO_SOURCES, "session", FIRST, STAGED);
  }

  lemma BeforeIsReady(claims: Claims, volumes: Volumes, session: string, key: ClaimKey)
    requires BeforeActivation(claims, volumes, session, key)
    ensures PlanReady(claims, volumes, session, key) && OwnedSource(claims, volumes, session, key)
  {
    hide StagedFor, Foreign, PolicyKept;
    forall k | k in claims && StagedFor(claims[k].data, session, claims[key].data.uid)
      ensures DestinationClaim(claims[k].data, session)
    {
      StagedIsMarked(claims[k].data, session, claims[key].data.uid);
    }
  }

  /** What a ready plan guarantees: it lists what is staged for the source, and nothing it anchors on. */
  predicate PlanSafe(claims: Claims, volumes: Volumes, session: string, key: ClaimKey, plan: Plan) {
    match plan
    case NotReady => true
    case RecordsOnly => key !in claims && NothingManaged(claims, volumes, session)
    case PreActivation(source, sourcePV, destination, destinationPV, policy) =>
      && source.key == key
      && Anchored(claims, volumes, session, source, sourcePV, SourceRole)
      && (destination.Some? && destination.value.version > 0 ==> destination.value.key != key)
      && (destinationPV.Some? ==> destinationPV.value.name != sourcePV.name)
      && Listed(claims, volumes, session, source.uid, destination, NameOf(destinationPV))
      && OnlyStaged(claims, volumes, session, source.uid, destination, destinationPV, policy)
    case PostActivation(source, activePV, rollbackPV, policy) =>
      && source.key == key
      && Anchored(claims, volumes, session, source, activePV, ActiveRole)
      && (rollbackPV.name in volumes ==> rollbackPV.name != activePV.name)
      && Paired(volumes, session, activePV.name, rollbackPV, policy)
  }

  class OrphanCleaner {
    const session: string
    var claims: Claims
    var volumes: Volumes
    var pods: set<Pod>
    var lease: bool
    /** The policy in force when each deleted volume went. */
    ghost var gone: map<string, Policy>
    /** Something outside the cleaner failed in this run. */
    ghost var hitch: bool

    ghost predicate Valid()
      reads `claims, `volumes
    {
      session != "" && Versioned(claims, volumes)
    }

    constructor (session: string, claims: Claims, volumes: Volumes, pods: set<Pod>, lease: bool)
      requires session != "" && Versioned(claims, volumes)
      ensures Valid() && this.session == session && this.claims == claims && this.volumes == volumes
      ensures this.pods == pods && this.lease == lease
    {
      this.session, this.claims, this.volumes, this.pods, this.lease := session, claims, volumes, pods, lease;
      this.gone := map[];
      this.hitch := false;
    }

    /** A call that may fail with nothing done. */
    method Fails() returns (failed: bool)
      modifies `hitch
      ensures hitch == (old(hitch) || failed)
    {
      failed := *;
      hitch := hitch || failed;
    }

    // --------------------------------------------------------- planning

    method PlanCleanup(key: ClaimKey) returns (read: bool, plan: Plan)
      requires Valid()
      modifies `hitch
      ensures PlanSafe(claims, volumes, session, key, plan)
      ensures !read ==> plan == NotReady && hitch
      ensures read ==> (plan.RecordsOnly? <==> key !in claims && NothingManaged(claims, volumes, session))
      ensures read ==> (plan.PostActivation? <==> AfterActivation(claims, volumes, session, key))
      ensures read && BeforeActivation(claims, volumes, session, key) ==> plan.PreActivation?
      ensures plan.PreActivation? ==> OwnedSource(claims, volumes, session, key)
      ensures read ==> (plan.PreActivation? <==> PlanReady(claims, volumes, session, key))
    {
      var failed := Fails();
      read := !failed;
      if !read {
        return false, NotReady;
      }
      if key !in claims {
        var owned :=
          || (exists name <- volumes ::
                volumes[name].data.managedBy == MANAGED_BY_VALUE && volumes[name].data.session == session)
          || (exists other <- claims ::
                && At(claims[other].data.labels, MANAGED_BY) == MANAGED_BY_VALUE
                && At(claims[other].data.labels, SESSION) == session);
        return true, if owned then NotReady else RecordsOnly;
      }
      var claim := claims[key].data;
      if Foreign(claim, session) || claim.volume == "" || claim.volume !in volumes {
        return true, NotReady;
      }
      var pv := volumes[claim.volume].data;
      if pv.session != session || claim.uid == "" || pv.claim != Some(ObjectRef(key.namespace, key.name, claim.uid)) {
        return true, NotReady;
      }
      if !PolicyKept(pv, pv.original) {
        return true, NotReady;
      }
      if pv.role == SourceRole {
        plan := PlanPreActivation(key);
      } else if pv.role == ActiveRole {
        plan := PlanPostActivation(key);
      } else {
        plan := NotReady;
      }
    }

    method PlanPostActivation(key: ClaimKey) returns (plan: Plan)
      requires Valid() && key in claims && claims[key].data.volume in volumes
      requires volumes[claims[key].data.volume].data.session == session
      requires volumes[claims[key].data.volume].data.role == ActiveRole
      requires ValidPolicy(volumes[claims[key].data.volume].data.original)
      ensures PlanSafe(claims, volumes, session, key, plan) && (plan.PostActivation? || plan == NotReady)
      ensures OwnedSource(claims, volumes, session, key) ==>
                (plan.PostActivation? <==> AfterActivation(claims, volumes, session, key))
    {
      var claim, name := claims[key].data, claims[key].data.volume;
      var active := volumes[name].data;
      var rollback := At(claim.annotations, ROLLBACK_PV);
      if rollback == "" {
        rollback := active.paired;
      }
      if rollback == "" || active.paired != rollback {
        return NotReady;
      }
      var ref, policy := PVRef(rollback, "", 0), NoPolicy;
      if rollback in volumes {
        var pv := volumes[rollback].data;
        if pv.session != session || pv.role != RollbackRole || pv.paired != name
           || (pv.bind != Released && pv.bind != Available) || !PolicyKept(pv, pv.original) {
          return NotReady;
        }
        ref, policy := PVRef(rollback, pv.uid, volumes[rollback].version), pv.original;
      }
      plan := PostActivation(ClaimRef(key, claim.uid, claims[key].version),
                             PVRef(name, active.uid, volumes[name].version), ref, policy);
    }

    /** The one claim staged for this source, and its volume. */
    method FindStagedClaim(sourceUid: string) returns (ok: bool, destination: Option<ClaimRef>, destinationPV: Option<string>)
      requires Valid()
      ensures ok <==> OneStaged(claims, session, sourceUid)
      ensures ok && destination == None ==>
                destinationPV == None && forall k <- claims :: !StagedFor(claims[k].data, session, sourceUid)
      ensures ok && destination.Some? ==>
                && destination.value.version > 0 && destination.value.key in claims
                && StagedClaim(claims[destination.value.key], session, sourceUid, destination.value)
                && Listed(claims, volumes, session, sourceUid, destination, destinationPV)
                && destination.value.uid != ""
                && var name := claims[destination.value.key].data.volume;
                   destinationPV == if name != "" && name in volumes then Some(name) else None
    {
      destination, destinationPV := None, None;
      var matching := set k <- claims | StagedFor(claims[k].data, session, sourceUid);
      assert forall k <- claims :: StagedFor(claims[k].data, session, sourceUid) <==> k in matching;
      if |matching| > 1 {
        TwoMembers(matching);
        return false, None, None;
      }
      if |matching| == 0 {
        return true, None, None;
      }
      var k :| k in matching;
      OnlyMember(matching, k);
      var found := claims[k].data;
      if At(found.annotations, SESSION) != session || found.uid == "" {
        return false, None, None;
      }
      destination := Some(ClaimRef(k, found.uid, claims[k].version));
      if found.volume != "" && found.volume in volumes {
        destinationPV := Some(found.volume);
      }
      ok := true;
    }

    /** More claims are staged than the one found. */
    method OthersStaged(sourceUid: string, destination: Option<ClaimRef>) returns (others: bool)
      requires OneStaged(claims, session, sourceUid)
      requires if destination.Some?
               then destination.value.key in claims && StagedFor(claims[destination.value.key].data, session, sourceUid)
               else forall k <- claims :: !StagedFor(claims[k].data, session, sourceUid)
      ensures others <==> StagedElsewhere(claims, session, sourceUid)
    {
      hide StagedFor, StagedElsewhere, OneStaged;
      var staged := set k <- claims | DestinationClaim(claims[k].data, session);
      StagedCount(claims, session, sourceUid, staged, destination);
      others := |staged| > (if destination.Some? then 1 else 0);
    }

    method SingleSource() returns (single: bool)
      ensures single <==> Single(volumes, session)
    {
      var sources := set n <- volumes | OwnedPV(volumes[n].data, session, SourceRole);
      assert forall n <- volumes :: OwnedPV(volumes[n].data, session, SourceRole) <==> n in sources;
      single := |sources| == 1;
      if single {
        var n :| n in sources;
        OnlyMember(sources, n);
      } else if |sources| > 1 {
        TwoMembers(sources);
      }
    }

    /** Without a staged claim, the one staged volume that no claim names, if the session has a single source. */
    method FindUnclaimed(single: bool) returns (ok: bool, destination: Option<ClaimRef>, destinationPV: Option<string>)
      requires Valid()
      ensures ok ==> forall n <- volumes :: Unclaimed(claims, volumes, session, n) ==> destinationPV == Some(n)
      ensures ok && destinationPV.Some? ==>
                && single && destinationPV.value in volumes
                && Unclaimed(claims, volumes, session, destinationPV.value)
                && destination == (match volumes[destinationPV.value].data.claim
                                   case Some(c) => Some(ClaimRef(Key(c), c.uid, 0))
                                   case None => None)
      ensures ok && destinationPV == None ==> destination == None
      ensures ok <==> forall n <- volumes | Unclaimed(claims, volumes, session, n) ::
                        single && forall m <- volumes | Unclaimed(claims, volumes, session, m) :: m == n
    {
      destination, destinationPV := None, None;
      var unclaimed := set n <- volumes | Unclaimed(claims, volumes, session, n);
      assert forall n <- volumes :: Unclaimed(claims, volumes, session, n) <==> n in unclaimed;
      if |unclaimed| == 0 {
        return true, None, None;
      }
      var n :| n in unclaimed;
      if |unclaimed| > 1 || !single {
        if |unclaimed| > 1 {
          TwoMembers(unclaimed);
        }
        return false, None, None;
      }
      OnlyMember(unclaimed, n);
      destinationPV := Some(n);
      if volumes[n].data.claim.Some? {
        var c := volumes[n].data.claim.value;
        destination := Some(ClaimRef(Key(c), c.uid, 0));
      }
      ok := true;
    }

    /** The staged claim of this source; its volume, or the one unclaimed staged volume of a single-volume session. */
    method PlanPreActivation(key: ClaimKey) returns (plan: Plan)
      requires Valid() && key in claims && claims[key].data.volume in volumes
      requires volumes[claims[key].data.volume].data.session == session
      requires volumes[claims[key].data.volume].data.role == SourceRole
      requires ValidPolicy(volumes[claims[key].data.volume].data.original)
      requires claims[key].data.volume != ""
      ensures PlanSafe(claims, volumes, session, key, plan) && (plan.PreActivation? || plan == NotReady)
      ensures BeforeActivation(claims, volumes, session, key) ==> plan.PreActivation?
      ensures OwnedSource(claims, volumes, session, key) ==>
                (plan.PreActivation? <==> PlanReady(claims, volumes, session, key))
    {
      hide Foreign, Single, StagedElsewhere, PolicyKept, PlanReady, BeforeActivation, OwnedSource, Listed, OneStaged;
      if BeforeActivation(claims, volumes, session, key) {
        BeforeIsReady(claims, volumes, session, key);
      }
      if PlanReady(claims, volumes, session, key) {
        ReadyMeans(claims, volumes, session, key);
      }
      var claim, name := claims[key].data, claims[key].data.volume;
      if At(claim.annotations, ROLLBACK_PV) != "" || volumes[name].data.paired != "" {
        return NotReady;
      }
      var ok, destination, destinationPV := FindStagedClaim(claim.uid);
      if !ok {
        return NotReady;
      }
      var single := SingleSource();
      var others := OthersStaged(claim.uid, destination);
      if others && single {
        return NotReady;
      }
      if destination.Some? {
        plan := PlanStaged(key, destination.value, destinationPV);
      } else {
        plan := PlanUnclaimed(key, single);
      }
    }

    method PlanStaged(key: ClaimKey, destination: ClaimRef, destinationPV: Option<string>) returns (plan: Plan)
      requires Valid() && key in claims && claims[key].data.volume in volumes && claims[key].data.volume != ""
      requires volumes[claims[key].data.volume].data.session == session
      requires volumes[claims[key].data.volume].data.role == SourceRole
      requires ValidPolicy(volumes[claims[key].data.volume].data.original)
      requires volumes[claims[key].data.volume].data.paired == "" && At(claims[key].data.annotations, ROLLBACK_PV) == ""
      requires OneStaged(claims, session, claims[key].data.uid)
      requires !(Single(volumes, session) && StagedElsewhere(claims, session, claims[key].data.uid))
      requires destination.version > 0 && destination.key in claims && destination.uid != ""
      requires StagedClaim(claims[destination.key], session, claims[key].data.uid, destination)
      requires Listed(claims, volumes, session, claims[key].data.uid, Some(destination), destinationPV)
      requires
        var name := claims[destination.key].data.volume;
        destinationPV == if name != "" && name in volumes then Some(name) else None
      ensures PlanSafe(claims, volumes, session, key, plan) && (plan.PreActivation? || plan == NotReady)
      ensures OwnedSource(claims, volumes, session, key) ==>
                (plan.PreActivation? <==> PlanReady(claims, volumes, session, key))
    {
      hide Foreign, Single, StagedElsewhere, PolicyKept, PlanReady, OwnedSource, Listed, PlanSafe, OneStaged;
      if OwnedSource(claims, volumes, session, key) {
        ReadyWithStaged(claims, volumes, session, key, destination, destinationPV);
      }
      plan := AssemblePreActivation(key, Some(destination), destinationPV);
    }

    method PlanUnclaimed(key: ClaimKey, single: bool) returns (plan: Plan)
      requires Valid() && key in claims && claims[key].data.volume in volumes && claims[key].data.volume != ""
      requires volumes[claims[key].data.volume].data.session == session
      requires volumes[claims[key].data.volume].data.role == SourceRole
      requires ValidPolicy(volumes[claims[key].data.volume].data.original)
      requires volumes[claims[key].data.volume].data.paired == "" && At(claims[key].data.annotations, ROLLBACK_PV) == ""
      requires single <==> Single(volumes, session)
      requires !(single && StagedElsewhere(claims, session, claims[key].data.uid))
      requires forall k <- claims :: !StagedFor(claims[k].data, session, claims[key].data.uid)
      ensures PlanSafe(claims, volumes, session, key, plan) && (plan.PreActivation? || plan == NotReady)
      ensures OwnedSource(claims, volumes, session, key) ==>
                (plan.PreActivation? <==> PlanReady(claims, volumes, session, key))
    {
      hide Foreign, Single, StagedElsewhere, PolicyKept, StagedFor, PlanReady, OwnedSource;
      if OwnedSource(claims, volumes, session, key) {
        ReadyWithout(claims, volumes, session, key);
      }
      var ok, destination, destinationPV := FindUnclaimed(single);
      if !ok {
        return NotReady;
      }
      plan := AssemblePreActivation(key, destination, destinationPV);
    }

    method AssemblePreActivation(key: ClaimKey, destination: Option<ClaimRef>, destinationPV: Option<string>)
      returns (plan: Plan)
      requires Valid() && key in claims && claims[key].data.volume in volumes
      requires volumes[claims[key].data.volume].data.session == session
      requires volumes[claims[key].data.volume].data.role == SourceRole
      requires ValidPolicy(volumes[claims[key].data.volume].data.original)
      requires destinationPV.Some? ==> destinationPV.value in volumes
      requires Listed(claims, volumes, session, claims[key].data.uid, destination, destinationPV)
      requires StagedClaimOr(claims, volumes, session, claims[key].data.uid, destination, destinationPV)
      requires claims[key].data.volume != ""
      ensures PlanSafe(claims, volumes, session, key, plan) && (plan.PreActivation? || plan == NotReady)
      ensures plan == NotReady <==>
                && destinationPV.Some?
                && var pv := volumes[destinationPV.value].data;
                   || !OwnedPV(pv, session, DestinationRole) || !PolicyKept(pv, pv.original)
                   || (destination.Some? && destination.value.uid != ""
                       && pv.claim != Some(ObjectRef(destination.value.key.namespace,
                                                     destination.value.key.name, destination.value.uid)))
    {
      var claim, name := claims[key].data, claims[key].data.volume;
      var pvRef, policy: Policy := None, NoPolicy;
      if destinationPV.Some? {
        var pv := volumes[destinationPV.value].data;
        if !OwnedPV(pv, session, DestinationRole) || !PolicyKept(pv, pv.original) {
          return NotReady;
        }
        if destination.Some? && destination.value.uid != ""
           && pv.claim != Some(ObjectRef(destination.value.key.namespace, destination.value.key.name, destination.value.uid)) {
          return NotReady;
        }
        pvRef, policy := Some(PVRef(destinationPV.value, pv.uid, volumes[destinationPV.value].version)), pv.original;
      }
      plan := PreActivation(ClaimRef(key, claim.uid, claims[key].version),
                            PVRef(name, volumes[name].data.uid, volumes[name].version),
                            destination, pvRef, policy);
    }

    // --------------------------------------------------------- execution

    /** Only a claim that is still the staged one, at the version planned, is removed. */
    method DeleteDestinationClaim(sourceUid: string, ref: ClaimRef) returns (r: Result)
      requires Valid()
      modifies `claims, `hitch
      ensures Valid()
      ensures claims != old(claims) ==>
                && ref.key in old(claims) && StagedClaim(old(claims)[ref.key], session, sourceUid, ref)
                && claims == old(claims) - {ref.key}
      ensures r == Done ==> ref.key !in claims
      ensures r == Refused <==> ref.key in old(claims) && !StagedClaim(old(claims)[ref.key], session, sourceUid, ref)
      ensures (old(hitch) ==> hitch) && (r == Interrupted ==> hitch)
    {
      if ref.key !in claims {
        return Done;
      }
      var live := claims[ref.key];
      var owned := DestinationClaim(live.data, session)
        && At(live.data.annotations, SESSION) == session
        && At(live.data.annotations, SOURCE_PVC_UID) == sourceUid;
      if live.data.uid != ref.uid || live.version != ref.version || !owned {
        return Refused;
      }
      var failed := Fails();
      if failed {
        return Interrupted;
      }
      claims := claims - {ref.key};
      return Done;
    }

    /** Puts the recorded policy in force and deletes the volume, which no other writer may have touched since. */
    method RemovePV(name: string, pv: PV, policy: Policy) returns (r: Result)
      requires Valid() && name in volumes
      modifies `volumes, `gone, `hitch
      ensures Valid() && volumes - {name} == old(volumes) - {name} && volumes.Keys <= old(volumes).Keys
      ensures r == Done ==> name !in volumes
      ensures r != Refused
      ensures gone == if r == Done then old(gone)[name := policy] else old(gone)
      ensures (old(hitch) ==> hitch) && (r == Interrupted ==> hitch)
    {
      if pv.(policy := policy) != volumes[name].data {
        volumes := volumes[name := Live(pv.(policy := policy), volumes[name].version + 1)];
      }
      var failed := Fails();
      if failed {
        return Interrupted;
      }
      gone := gone[name := volumes[name].data.policy];
      volumes := volumes - {name};
      return Done;
    }

    /** Deletes the rollback volume if it is still exactly what was planned. */
    method DeleteRollbackPV(ref: PVRef, policy: Policy) returns (r: Result)
      requires Valid()
      modifies `volumes, `gone, `hitch
      ensures Valid() && volumes - {ref.name} == old(volumes) - {ref.name} && volumes.Keys <= old(volumes).Keys
      ensures volumes != old(volumes) ==>
                ref.name in old(volumes) && RollbackDeletable(old(volumes)[ref.name], session, ref, policy)
      ensures r == Done ==> ref.name !in volumes
      ensures gone == if r == Done && ref.name in old(volumes) then old(gone)[ref.name := policy] else old(gone)
      ensures r == Refused <==> ref.name in old(volumes) && !RollbackDeletable(old(volumes)[ref.name], session, ref, policy)
      ensures (old(hitch) ==> hitch) && (r == Interrupted ==> hitch)
    {
      if ref.name !in volumes {
        return Done;
      }
      var live := volumes[ref.name];
      if live.data.uid != ref.uid || live.version != ref.version || live.data.session != session
         || live.data.role != RollbackRole || (live.data.bind != Released && live.data.bind != Available) {
        return Refused;
      }
      if live.data.original != policy || !PolicyKept(live.data, policy) {
        return Refused;
      }
      r := RemovePV(ref.name, live.data, policy);
    }

    /** Deletes the staged volume once its claim has let go of it. */
    method DeleteStagedPV(ref: PVRef, policy: Policy) returns (r: Result)
      requires Valid()
      modifies `volumes, `gone, `hitch
      ensures Valid() && volumes - {ref.name} == old(volumes) - {ref.name} && volumes.Keys <= old(volumes).Keys
      ensures volumes != old(volumes) ==>
                ref.name in old(volumes) && StagedDeletable(old(volumes)[ref.name], claims, session, ref, policy)
      ensures r == Done ==> ref.name !in volumes
      ensures gone == if r == Done && ref.name in old(volumes) then old(gone)[ref.name := policy] else old(gone)
      ensures r == Refused ==>
                ref.name in old(volumes) && !StagedDeletable(old(volumes)[ref.name], claims, session, ref, policy)
      ensures (old(hitch) ==> hitch) && (r == Interrupted ==> hitch)
    {
      if ref.name !in volumes {
        return Done;
      }
      var live := volumes[ref.name];
      if live.data.uid != ref.uid || live.data.session != session || live.data.role != DestinationRole {
        return Refused;
      }
      var pv := live.data;
      if pv.bind == Bound {
        if pv.claim == None || (Key(pv.claim.value) in claims && !claims[Key(pv.claim.value)].data.terminating) {
          return Refused;
        }
        var waiting := Fails();
        if waiting {
          return Interrupted;
        }
        pv := pv.(bind := Released);
      }
      if pv.bind == OtherBindPhase || pv.original != policy || !PolicyKept(pv, policy) {
        return Refused;
      }
      r := RemovePV(ref.name, pv, policy);
    }

    /** Removes every trace of the session from the source claim, which stays. */
    method FinalizeClaim(ref: ClaimRef) returns (r: Result)
      requires Valid()
      modifies `claims, `hitch
      ensures Valid() && claims.Keys == old(claims).Keys && claims - {ref.key} == old(claims) - {ref.key}
      ensures ref.key in claims ==> GivenUp(old(claims)[ref.key].data, claims[ref.key].data)
      ensures r == Done ==> ref.key in claims && Unmarked(claims[ref.key].data)
      ensures (old(hitch) ==> hitch) && (r == Interrupted ==> hitch)
      ensures r == Refused ==>
                || ref.key !in old(claims)
                || old(claims)[ref.key].data.uid != ref.uid || old(claims)[ref.key].version != ref.version
                || !Releasable(old(claims)[ref.key].data, session)
    {
      if ref.key !in claims {
        return Refused;
      }
      var live := claims[ref.key];
      var c := live.data;
      if c.uid != ref.uid || live.version != ref.version || Foreign(c, session) {
        return Refused;
      }
      if !ClaimCarries(c, session) {
        var clean := At(c.labels, MANAGED_BY) == "" && At(c.labels, ROLE) == ""
          && At(c.annotations, SESSION) == "" && At(c.annotations, ROLLBACK_PV) == "";
        return if clean then Done else Refused;
      }
      var failed := Fails();
      if failed {
        return Interrupted;
      }
      claims := claims[ref.key := Live(ReleasedClaim(c), live.version + 1)];
      return Done;
    }

    /** Puts the volume back on its recorded policy and gives it up; it stays. */
    method FinalizePV(ref: PVRef, role: Role) returns (r: Result)
      requires Valid()
      modifies `volumes, `hitch
      ensures Valid() && volumes.Keys == old(volumes).Keys && volumes - {ref.name} == old(volumes) - {ref.name}
      ensures ref.name in volumes ==> volumes[ref.name].data.uid == old(volumes)[ref.name].data.uid
      ensures r == Done ==>
                && ref.name in volumes && volumes[ref.name].data == ReleasedPV(old(volumes)[ref.name].data)
                && ValidPolicy(volumes[ref.name].data.policy)
      ensures (old(hitch) ==> hitch) && (r == Interrupted ==> hitch)
      ensures r == Refused ==>
                || ref.name !in old(volumes)
                || old(volumes)[ref.name].data.uid != ref.uid || old(volumes)[ref.name].version != ref.version
                || old(volumes)[ref.name].data.session != session || old(volumes)[ref.name].data.role != role
                || !ValidPolicy(old(volumes)[ref.name].data.original)
    {
      if ref.name !in volumes {
        return Refused;
      }
      var live := volumes[ref.name];
      if live.data.uid != ref.uid || live.version != ref.version || live.data.session != session || live.data.role != role {
        return Refused;
      }
      if !ValidPolicy(live.data.original) {
        return Refused;
      }
      var failed := Fails();
      if failed {
        return Interrupted;
      }
      volumes := volumes[ref.name := Live(ReleasedPV(live.data), live.version + 1)];
      return Done;
    }

    ghost predicate Carried()
      reads `claims, `volumes, `pods
    {
      || (exists key <- claims :: ClaimCarries(claims[key].data, session))
      || (exists name <- volumes :: volumes[name].data.session == session)
      || (exists pod <- pods :: pod.session == session)
    }

    method HasSessionResources() returns (remaining: bool)
      ensures remaining <==> Carried()
    {
      remaining := false;
      var left := claims.Keys;
      while left != {}
        invariant left <= claims.Keys
        invariant forall key <- claims :: key !in left ==> !ClaimCarries(claims[key].data, session)
        decreases |left|
      {
        var key :| key in left;
        if ClaimCarries(claims[key].data, session) {
          return true;
        }
        left := left - {key};
      }
      var owned := set name <- volumes | volumes[name].data.session == session;
      if owned != {} {
        var name :| name in owned;
        assert volumes[name].data.session == session;
        return true;
      }
      assert forall name <- volumes :: name !in owned;
      var mine := set pod <- pods | pod.session == session;
      assert forall pod <- pods :: pod.session == session ==> pod in mine;
      remaining := mine != {};
    }

    /** The source claim and its volume stay, whatever the outcome. */
    twostate predicate Preserved(key: ClaimKey)
      reads this
    {
      key in old(claims) ==>
        && key in claims
        && GivenUp(old(claims)[key].data, claims[key].data)
        && (old(claims)[key].data.volume in old(volumes) ==>
              && old(claims)[key].data.volume in volumes
              && volumes[old(claims)[key].data.volume].data.uid == old(volumes)[old(claims)[key].data.volume].data.uid)
    }

    /** The release of the source has begun, which is the last thing a recovery does. */
    twostate predicate SourceReleasing(key: ClaimKey, pv: string)
      reads this
    {
      || !(key in claims && key in old(claims) && claims[key] == old(claims)[key])
      || !(pv in volumes && pv in old(volumes) && volumes[pv] == old(volumes)[pv])
    }

    /** Both are free of the session, and the volume is on the policy it had before the workflow. */
    twostate predicate Recovered(key: ClaimKey)
      reads this
    {
      && key in claims && Unmarked(claims[key].data)
      && key in old(claims) && old(claims)[key].data.volume in old(volumes) && old(claims)[key].data.volume in volumes
      && var was, now := old(volumes)[old(claims)[key].data.volume].data, volumes[old(claims)[key].data.volume].data;
         && now.session == "" && now.role == NoRole && now.managedBy == "" && now.original == NoPolicy && now.paired == ""
         && now.policy == was.original && ValidPolicy(now.policy)
         && now.uid == was.uid && now.bind == was.bind && now.claim == was.claim
    }

    method RemoveStagedClaim(key: ClaimKey, plan: Plan) returns (r: Result)
      requires Valid() && plan.PreActivation? && PlanSafe(claims, volumes, session, key, plan)
      modifies `claims, `pods, `hitch
      ensures Valid() && key in claims && key in old(claims) && claims[key] == old(claims)[key]
      ensures claims.Keys <= old(claims).Keys
      ensures if plan.destination.Some?
              then claims - {plan.destination.value.key} == old(claims) - {plan.destination.value.key}
              else claims == old(claims)
      ensures pods <= old(pods) && forall pod <- old(pods) - pods ::
                plan.destination.Some? && pod.session == session && pod.namespace == plan.destination.value.key.namespace
      ensures r == Done && plan.destination.Some? ==>
                && plan.destination.value.key !in claims
                && forall pod <- pods :: !(pod.session == session && pod.namespace == plan.destination.value.key.namespace)
      ensures (old(hitch) ==> hitch) && (r == Interrupted ==> hitch)
      ensures r == Refused ==>
                plan.destination.Some? && plan.destination.value.version == 0 && plan.destination.value.key in old(claims)
    {
      hide Listed, StagedClaim, PolicyKept, Unclaimed;
      if plan.destination == None {
        return Done;
      }
      var consumers := set pod <- pods | pod.session == session && pod.namespace == plan.destination.value.key.namespace;
      pods := pods - consumers;
      var used := Fails();
      if used {
        return Interrupted;
      }
      r := DeleteDestinationClaim(plan.source.uid, plan.destination.value);
    }

    /** The staged claim, after the pods of the session beside it, and the staged volume; the source is not touched. */
    method RemoveStaged(key: ClaimKey, plan: Plan) returns (r: Result)
      requires Valid() && plan.PreActivation? && PlanSafe(claims, volumes, session, key, plan)
      modifies `claims, `volumes, `pods, `gone, `hitch
      ensures Valid() && Anchored(claims, volumes, session, plan.source, plan.sourcePV, SourceRole)
      ensures claims[key] == old(claims)[key] && volumes[plan.sourcePV.name] == old(volumes)[plan.sourcePV.name]
      ensures claims.Keys <= old(claims).Keys && volumes.Keys <= old(volumes).Keys
      ensures if plan.destination.Some?
              then claims - {plan.destination.value.key} == old(claims) - {plan.destination.value.key}
              else claims == old(claims)
      ensures if plan.destinationPV.Some?
              then volumes - {plan.destinationPV.value.name} == old(volumes) - {plan.destinationPV.value.name}
              else volumes == old(volumes)
      ensures pods <= old(pods) && forall pod <- old(pods) - pods ::
                plan.destination.Some? && pod.session == session && pod.namespace == plan.destination.value.key.namespace
      ensures r == Done ==> DestinationGone(plan, claims, volumes, pods, session, gone)
      ensures (old(hitch) ==> hitch) && (r == Interrupted ==> hitch)
      ensures Removable(old(claims), old(volumes), plan) ==> r != Refused
    {
      hide Listed, StagedDeletable, StagedClaim, PolicyKept;
      r := RemoveStagedClaim(key, plan);
      if r != Done {
        return;
      }
      if plan.destinationPV.Some? {
        if Removable(old(claims), old(volumes), plan) {
          StagedIsDeletable(old(claims), old(volumes), session, key, plan, claims);
        }
        r := DeleteStagedPV(plan.destinationPV.value, plan.destinationPolicy);
        StaysIn(old(volumes), volumes, plan.destinationPV.value.name, plan.sourcePV.name);
        if r != Done {
          return;
        }
      }
      r := Done;
    }

    method CleanupPreActivation(key: ClaimKey, plan: Plan) returns (r: Result)
      requires Valid() && plan.PreActivation? && PlanSafe(claims, volumes, session, key, plan)
      modifies `claims, `volumes, `pods, `gone, `hitch
      ensures Valid() && Preserved(key) && (r == Done ==> Recovered(key))
      ensures claims - ClaimsOf(plan) == old(claims) - ClaimsOf(plan)
      ensures volumes - VolumesOf(plan) == old(volumes) - VolumesOf(plan)
      ensures pods <= old(pods) && forall pod <- old(pods) - pods ::
                plan.destination.Some? && pod.session == session && pod.namespace == plan.destination.value.key.namespace
      ensures r == Done || SourceReleasing(key, plan.sourcePV.name) ==>
                DestinationGone(plan, claims, volumes, pods, session, gone)
      ensures (old(hitch) ==> hitch) && (r == Interrupted ==> hitch)
      ensures Removable(old(claims), old(volumes), plan) && Releasable(old(claims)[key].data, session) ==> r != Refused
    {
      hide Listed, OnlyStaged, Unmarked, GivenUp, ValidPolicy;
      NothingGivenUp();
      r := RemoveStaged(key, plan);
      ghost var c, v := claims, volumes;
      if r == Done {
        r := ReleaseBoth(key, plan.source, plan.sourcePV, SourceRole);
      }
      ghost var d := if plan.destination.Some? then plan.destination.value.key else key;
      ghost var n := if plan.destinationPV.Some? then plan.destinationPV.value.name else plan.sourcePV.name;
      Elsewhere(old(claims), c, claims, d, key);
      Elsewhere(old(volumes), v, volumes, n, plan.sourcePV.name);
      assert ClaimsOf(plan) == {d, key} && VolumesOf(plan) == {n, plan.sourcePV.name};
    }

    method ReleaseBoth(key: ClaimKey, source: ClaimRef, pv: PVRef, role: Role) returns (r: Result)
      requires Valid() && source.key == key && Anchored(claims, volumes, session, source, pv, role)
      modifies `claims, `volumes, `hitch
      ensures Valid() && Preserved(key) && (r == Done ==> Recovered(key))
      ensures claims.Keys == old(claims).Keys && volumes.Keys == old(volumes).Keys
      ensures claims - {key} == old(claims) - {key} && volumes - {pv.name} == old(volumes) - {pv.name}
      ensures (old(hitch) ==> hitch) && (r == Interrupted ==> hitch)
      ensures Releasable(old(claims)[key].data, session) ==> r != Refused
    {
      r := FinalizeClaim(source);
      if r != Done {
        return;
      }
      r := FinalizePV(pv, role);
    }

    method CleanupPostActivation(key: ClaimKey, plan: Plan) returns (r: Result)
      requires Valid() && plan.PostActivation? && PlanSafe(claims, volumes, session, key, plan)
      modifies `claims, `volumes, `gone, `hitch
      ensures Valid() && Preserved(key) && (r == Done ==> Recovered(key))
      ensures claims - ClaimsOf(plan) == old(claims) - ClaimsOf(plan)
      ensures volumes - VolumesOf(plan) == old(volumes) - VolumesOf(plan)
      ensures r == Done || SourceReleasing(key, plan.activePV.name) ==>
                RollbackCleared(old(volumes), plan.activePV.name, volumes, gone)
      ensures (old(hitch) ==> hitch) && (r == Interrupted ==> hitch)
      ensures Releasable(old(claims)[key].data, session) ==> r != Refused
    {
      hide Unmarked, GivenUp, ValidPolicy;
      NothingGivenUp();
      r := DeleteRollbackPV(plan.rollbackPV, plan.rollbackPolicy);
      StaysIn(old(volumes), volumes, plan.rollbackPV.name, plan.activePV.name);
      assert volumes[plan.activePV.name] == old(volumes)[plan.activePV.name];
      ghost var v := volumes;
      if r == Done {
        r := ReleaseBoth(key, plan.source, plan.activePV, ActiveRole);
      }
      Elsewhere(old(volumes), v, volumes, plan.rollbackPV.name, plan.activePV.name);
      assert VolumesOf(plan) == {plan.rollbackPV.name, plan.activePV.name};
    }

    /** Carries a plan out. */
    method Execute(key: ClaimKey, plan: Plan) returns (r: Result)
      requires Valid() && PlanSafe(claims, volumes, session, key, plan)
      modifies `claims, `volumes, `pods, `gone, `hitch
      ensures Valid() && Preserved(key)
      ensures r == Done ==> plan != NotReady && (plan.RecordsOnly? || Recovered(key))
      ensures claims - ClaimsOf(plan) == old(claims) - ClaimsOf(plan)
      ensures volumes - VolumesOf(plan) == old(volumes) - VolumesOf(plan)
      ensures !plan.PreActivation? ==> pods == old(pods)
      ensures plan in {NotReady, RecordsOnly} ==> claims == old(claims) && volumes == old(volumes)
      ensures plan.PreActivation? && (r == Done || SourceReleasing(key, plan.sourcePV.name)) ==>
                && DestinationGone(plan, claims, volumes, pods, session, gone)
                && StagedCleared(old(claims), old(volumes), session, plan.source.uid, claims, volumes, gone)
      ensures plan.PostActivation? && (r == Done || SourceReleasing(key, plan.activePV.name)) ==>
                RollbackCleared(old(volumes), plan.activePV.name, volumes, gone)
      ensures (old(hitch) ==> hitch) && (r == Interrupted ==> hitch)
      ensures r == Refused ==>
                || plan == NotReady
                || (plan.PreActivation? && !Removable(old(claims), old(volumes), plan))
                || (key in old(claims) && !Releasable(old(claims)[key].data, session))
    {
      hide PlanSafe, Recovered, DestinationGone, StagedCleared, RollbackCleared, GivenUp, Versioned;
      NothingGivenUp();
      PlanAnchors(claims, volumes, session, key, plan);
      match plan {
        case NotReady => r := Refused;
        case RecordsOnly => r := Done;
        case PreActivation(_, _, _, _, _) =>
          r := CleanupPreActivation(key, plan);
          if r == Done || SourceReleasing(key, plan.sourcePV.name) {
            ClearedAsListed(old(claims), old(volumes), key, plan, session, claims, volumes, pods, gone);
          }
        case PostActivation(_, _, _, _) => r := CleanupPostActivation(key, plan);
      }
    }

    /** The lease goes once nothing carries the session any more. */
    method DropLease() returns (r: Result)
      modifies `lease, `hitch
      ensures r != Refused && (old(hitch) ==> hitch) && (r == Interrupted ==> hitch)
      ensures r == Done ==> (lease <==> old(lease) && Carried())
      ensures r != Done ==> lease == old(lease)
    {
      hide Carried;
      var failed := Fails();
      if failed {
        return Interrupted;
      }
      var remaining := HasSessionResources();
      if !remaining {
        lease := false;
      }
      r := Done;
    }

    /**
     The source claim and its volume are never removed, and nothing that the plan does
     not name is touched. A finished recovery leaves both without the session and the
     volume on its original policy, has deleted all that was staged for the source, each
     volume under its own original policy, before it gave the source back, and deletes
     the lease exactly when nothing carries the session any more.
     */
    method Cleanup(key: ClaimKey) returns (r: Result, plan: Plan)
      requires Valid()
      modifies this
      ensures Valid() && Preserved(key)
      ensures PlanSafe(old(claims), old(volumes), session, key, plan)
      ensures r == Done ==> plan != NotReady
      ensures r == Done && !plan.RecordsOnly? ==> Recovered(key)
      ensures r == Done && plan.RecordsOnly? ==> key !in old(claims) && claims == old(claims) && volumes == old(volumes)
      ensures claims - ClaimsOf(plan) == old(claims) - ClaimsOf(plan)
      ensures volumes - VolumesOf(plan) == old(volumes) - VolumesOf(plan)
      ensures plan.PreActivation? && (r == Done || SourceReleasing(key, plan.sourcePV.name)) ==>
                && DestinationGone(plan, claims, volumes, pods, session, gone)
                && StagedCleared(old(claims), old(volumes), session, plan.source.uid, claims, volumes, gone)
      ensures plan.PostActivation? && (r == Done || SourceReleasing(key, plan.activePV.name)) ==>
                RollbackCleared(old(volumes), plan.activePV.name, volumes, gone)
      ensures r == Done ==> (lease <==> old(lease) && Carried())
      ensures r != Done ==> lease == old(lease)
      ensures r == Interrupted ==> hitch
      ensures Plain(old(claims), old(volumes), session, key) ==> r == Done || hitch
    {
      hide Carried, GivenUp, Unmarked, DestinationGone, StagedCleared, RollbackCleared, Versioned, ClaimsOf, VolumesOf;
      hide Listed, OnlyStaged, Anchored, Paired, BeforeActivation, AfterActivation, OwnedSource, NothingManaged;
      hide Plain, PlanReady, Removable, Releasable, PlanSafe;
      var read;
      read, plan := PlanCleanup(key);
      if Plain(claims, volumes, session, key) && read {
        PlainIsCarriedOut(claims, volumes, session, key, plan);
      }
      r := Execute(key, plan);
      if r != Done {
        return;
      }
      r := DropLease();
    }
  }

  lemma NothingGivenUp()
    ensures forall c :: GivenUp(c, c)
  {
  }

  /** If every staged claim is staged for this source, there is no other than the one found. */
  lemma FewStaged(claims: Claims, session: string, sourceUid: string, staged: set<ClaimKey>, destination: Option<ClaimRef>)
    requires forall k <- staged :: k in claims && StagedFor(claims[k].data, session, sourceUid)
    requires OneStaged(claims, session, sourceUid)
    requires if destination.Some?
             then destination.value.key in claims && StagedFor(claims[destination.value.key].data, session, sourceUid)
             else forall k <- claims :: !StagedFor(claims[k].data, session, sourceUid)
    ensures |staged| <= if destination.Some? then 1 else 0
  {
    hide StagedFor;
    if destination.Some? {
      assert staged == {} || staged == {destination.value.key};
    } else {
      assert staged == {};
    }
  }

  lemma ReadyMeans(claims: Claims, volumes: Volumes, session: string, key: ClaimKey)
    requires PlanReady(claims, volumes, session, key)
    ensures OneStaged(claims, session, claims[key].data.uid) && volumes[claims[key].data.volume].data.paired == ""
    ensures At(claims[key].data.annotations, ROLLBACK_PV) == ""
    ensures !(Single(volumes, session) && StagedElsewhere(claims, session, claims[key].data.uid))
  {
  }

  /** What is left to check once the staged claim is found. */
  lemma ReadyWithStaged(claims: Claims, volumes: Volumes, session: string, key: ClaimKey, destination: ClaimRef,
                        destinationPV: Option<string>)
    requires OwnedSource(claims, volumes, session, key)
    requires
      var source := volumes[claims[key].data.volume].data;
      source.role == SourceRole && source.paired == "" && At(claims[key].data.annotations, ROLLBACK_PV) == ""
    requires OneStaged(claims, session, claims[key].data.uid)
    requires !(Single(volumes, session) && StagedElsewhere(claims, session, claims[key].data.uid))
    requires destination.key in claims && StagedFor(claims[destination.key].data, session, claims[key].data.uid)
    requires destination.uid == claims[destination.key].data.uid
    requires
      var name := claims[destination.key].data.volume;
      destinationPV == if name != "" && name in volumes then Some(name) else None
    ensures PlanReady(claims, volumes, session, key) <==>
              (destinationPV.Some? ==> Matches(volumes[destinationPV.value].data, session, destination.key, destination.uid))
  {
    hide StagedFor, Single, StagedElsewhere, Matches, OwnedSource, Unclaimed;
  }

  /** What is left to check if there is none. */
  lemma ReadyWithout(claims: Claims, volumes: Volumes, session: string, key: ClaimKey)
    requires OwnedSource(claims, volumes, session, key)
    requires
      var source := volumes[claims[key].data.volume].data;
      source.role == SourceRole && source.paired == "" && At(claims[key].data.annotations, ROLLBACK_PV) == ""
    requires !(Single(volumes, session) && StagedElsewhere(claims, session, claims[key].data.uid))
    requires forall k <- claims :: !StagedFor(claims[k].data, session, claims[key].data.uid)
    ensures PlanReady(claims, volumes, session, key) <==>
              forall n <- volumes | Unclaimed(claims, volumes, session, n) ::
                && Single(volumes, session) && PolicyKept(volumes[n].data, volumes[n].data.original)
                && forall m <- volumes | Unclaimed(claims, volumes, session, m) :: m == n
  {
    hide StagedFor, Single, StagedElsewhere, OwnedSource, Unclaimed, PolicyKept;
  }

  lemma StagedCount(claims: Claims, session: string, sourceUid: string, staged: set<ClaimKey>, destination: Option<ClaimRef>)
    requires forall k :: k in staged <==> k in claims && DestinationClaim(claims[k].data, session)
    requires OneStaged(claims, session, sourceUid)
    requires if destination.Some?
             then destination.value.key in claims && StagedFor(claims[destination.value.key].data, session, sourceUid)
             else forall k <- claims :: !StagedFor(claims[k].data, session, sourceUid)
    ensures |staged| > (if destination.Some? then 1 else 0) <==> StagedElsewhere(claims, session, sourceUid)
  {
    if StagedElsewhere(claims, session, sourceUid) {
      var j :| j in claims && DestinationClaim(claims[j].data, session) && !StagedFor(claims[j].data, session, sourceUid);
      assert j in staged;
      if destination.Some? {
        assert destination.value.key in staged - {j};
        assert |staged - {j}| > 0;
      }
    } else {
      FewStaged(claims, session, sourceUid, staged, destination);
    }
  }

  lemma TwoMembers<T>(s: set<T>)
    requires |s| > 1
    ensures exists x, y :: x in s && y in s && x != y
  {
    var x :| x in s;
    assert |s - {x}| > 0;
    var y :| y in s - {x};
  }

  lemma OnlyMember<T>(s: set<T>, x: T)
    requires |s| == 1 && x in s
    ensures s == {x}
  {
    assert |s - {x}| == 0;
  }

  lemma PlanAnchors(claims: Claims, volumes: Volumes, session: string, key: ClaimKey, plan: Plan)
    requires PlanSafe(claims, volumes, session, key, plan)
    ensures plan.PreActivation? || plan.PostActivation? ==> key in claims
  {
  }

  /** The listed volume is deletable as soon as the listed claim is gone. */
  lemma StagedIsDeletable(claims: Claims, volumes: Volumes, session: string, key: ClaimKey, plan: Plan, now: Claims)
    requires plan.PreActivation? && PlanSafe(claims, volumes, session, key, plan) && Removable(claims, volumes, plan)
    requires plan.destinationPV.Some? && now.Keys <= claims.Keys
    requires plan.destination.Some? ==> plan.destination.value.key !in now
    ensures plan.destinationPV.value.name in volumes
    ensures StagedDeletable(volumes[plan.destinationPV.value.name], now, session, plan.destinationPV.value, plan.destinationPolicy)
  {
    hide Listed, StagedClaimOr, Anchored;
  }

  /** What a plan lists is all that was staged, so a finished plan clears it. */
  lemma ClearedAsListed(claims: Claims, volumes: Volumes, key: ClaimKey, plan: Plan, session: string,
                        after: Claims, left: Volumes, pods: set<Pod>, gone: map<string, Policy>)
    requires plan.PreActivation? && PlanSafe(claims, volumes, session, key, plan)
    requires DestinationGone(plan, after, left, pods, session, gone)
    ensures StagedCleared(claims, volumes, session, plan.source.uid, after, left, gone)
  {
    hide Unclaimed, StagedFor, PolicyKept;
  }

  /** Changing one key and then another changes no third. */
  lemma Elsewhere<K, V>(a: map<K, V>, b: map<K, V>, c: map<K, V>, x: K, y: K)
    requires a - {x} == b - {x} && b - {y} == c - {y}
    ensures a - {x, y} == c - {x, y}
  {
    assert a - {x, y} == (a - {x}) - {y};
    assert b - {x, y} == (b - {x}) - {y};
    assert b - {x, y} == (b - {y}) - {x};
    assert c - {x, y} == (c - {y}) - {x};
  }

  lemma StaysIn(before: Volumes, after: Volumes, gone: string, kept: string)
    requires after - {gone} == before - {gone} && gone != kept
    ensures kept in after <==> kept in before
    ensures kept in before ==> after[kept] == before[kept]
  {
    assert kept in before - {gone} <==> kept in before;
    assert kept in after - {gone} <==> kept in after;
  }
}
