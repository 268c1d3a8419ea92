/**
 Cleanup of a terminal migration: which of the two copies of each volume may be
 deleted, and the deletion and release themselves.
 */
module Reclaim {
  import opened Lifecycle
  import opened Checkpoints
  import opened OfflineRecords
  import opened Recovery
  import opened Storage

  /** The claim does not carry the session's annotation any more. */
  predicate ClaimReleased(claims: map<ClaimKey, Claim>, ref: ObjectRef, session: string) {
    session != "" && Key(ref) in claims ==> At(claims[Key(ref)].annotations, SESSION) != session
  }

  /** No claim came or went, and none changed but in the annotation that marks it. */
  predicate OnlyUnmarked(before: map<ClaimKey, Claim>, after: map<ClaimKey, Claim>) {
    && before.Keys == after.Keys
    && forall key <- before ::
         || after[key] == before[key]
         || after[key] == before[key].(annotations := before[key].annotations - {SESSION})
  }

  lemma UnmarkedTwice(a: map<ClaimKey, Claim>, b: map<ClaimKey, Claim>, c: map<ClaimKey, Claim>)
    requires OnlyUnmarked(a, b) && OnlyUnmarked(b, c)
    ensures OnlyUnmarked(a, c)
  {
    forall key | key in a
      ensures c[key] == a[key] || c[key] == a[key].(annotations := a[key].annotations - {SESSION})
    {
      assert a[key].annotations - {SESSION} - {SESSION} == a[key].annotations - {SESSION};
    }
  }

  /** Only this copy was touched, and only a deletable volume can go. */
  predicate Confined(c: Cluster, v: ReclaimVolume, d: Cluster) {
    && c.claims - {Key(v.pvc)} == d.claims - {Key(v.pvc)}
    && c.volumes - {v.pv.name} == d.volumes - {v.pv.name}
    && (v.pv.name in d.volumes ==> v.pv.name in c.volumes)
    && (!v.delete && v.pv.name in c.volumes ==> v.pv.name in d.volumes)
  }

  class StorageReclaimer {
    const session: string
    var claims: map<ClaimKey, Claim>
    var volumes: map<string, PV>
    /** The policy in force when each deleted volume went. */
    ghost var gone: map<string, Policy>
    /** Something outside the reclaimer failed in this run. */
    ghost var hitch: bool

    ghost function State(): Cluster
      reads this
    {
      Cluster(claims, volumes)
    }

    constructor (session: string, claims: map<ClaimKey, Claim>, volumes: map<string, PV>)
      ensures this.session == session && State() == Cluster(claims, volumes)
    {
      this.session := session;
      this.claims := claims;
      this.volumes := volumes;
      this.gone := map[];
      this.hitch := false;
    }

    /** A call that may fail with nothing done. */
    method Fails() returns (failed: bool)
      modifies `hitch
      ensures hitch == (old(hitch) || failed)
    {
      failed := *;
      hitch := hitch || failed;
    }

    // --------------------------------------------------------- one copy

    /** The dry run of one copy. */
    method Validate(v: ReclaimVolume, finalize: bool) returns (r: Result)
      modifies `hitch
      ensures r == Done ==> Skips(State(), v, finalize) || Preview(State(), v, session)
      ensures r == Refused ==> !Skips(State(), v, finalize) && !Preview(State(), v, session)
      ensures r == Interrupted ==> hitch
    {
      var failed := Fails();
      if failed {
        return Interrupted;
      }
      if (v.skipMissing && v.pv.name !in volumes) || (!v.delete && !finalize) {
        return Done;
      }
      if v.pvc.uid != "" && Key(v.pvc) in claims {
        var claim := claims[Key(v.pvc)];
        if !ClaimOwned(claim, v.pvc.uid, session) || (v.delete && At(claim.labels, SESSION) != session) {
          return Refused;
        }
        var consumed := Fails();
        if v.delete && consumed {
          return Interrupted;
        }
      }
      if v.pv.name == "" {
        return Done;
      }
      if v.policy == NoPolicy {
        return Refused;
      }
      if v.pv.name !in volumes {
        return Done;
      }
      var pv := volumes[v.pv.name];
      var unlabelled := Uncheckpointed(v, pv) && pv.uid == v.pv.uid;
      if !Finalizable(pv, v.pv.uid, session, v.policy) && !unlabelled {
        return Refused;
      }
      if v.role != NoRole && pv.session == session && pv.role != v.role {
        return Refused;
      }
      if v.delete && pv.session != session && !unlabelled {
        return Refused;
      }
      if pv.claim.Some? && pv.bind == Bound && (v.pvc.uid == "" || pv.claim.value != v.pvc) {
        return Refused;
      }
      return Done;
    }

    method DeleteClaim(v: ReclaimVolume) returns (r: Result)
      requires v.delete && v.pvc.uid != ""
      modifies `claims, `hitch
      ensures Deleting(old(State()), v, State())
      ensures r == Refused ==> !ClaimAccepted(old(State()), v, session)
      ensures r == Done && Key(v.pvc) in claims ==> claims[Key(v.pvc)].uid == v.pvc.uid && claims[Key(v.pvc)].terminating
      ensures r == Interrupted ==> hitch
    {
      if Key(v.pvc) !in claims {
        return Done;
      }
      var claim := claims[Key(v.pvc)];
      if claim.uid != v.pvc.uid || At(claim.labels, SESSION) != session {
        return Refused;
      }
      var failed := Fails();
      if failed {
        return Interrupted;
      }
      claims := claims[Key(v.pvc) := claim.(terminating := true)];
      var unacknowledged := Fails();
      return if unacknowledged then Interrupted else Done;
    }

    /** The controllers finish a deletion: a claim that is going goes, and its volume is released. */
    method AwaitRelease(v: ReclaimVolume) returns (r: Result)
      requires v.pvc.uid != "" && v.pv.name != "" && v.pv.name in volumes
      modifies `claims, `volumes, `hitch
      ensures Deleting(old(State()), v, State())
      ensures r != Refused
      ensures r == Done ==> v.pv.name in volumes && volumes[v.pv.name].bind != Bound
      ensures r == Done ==> volumes[v.pv.name] == old(volumes)[v.pv.name].(bind := volumes[v.pv.name].bind)
      ensures r == Interrupted ==> hitch
    {
      var waiting := Fails();
      if waiting {
        return Interrupted;
      }
      claims := claims - {Key(v.pvc)};
      waiting := Fails();
      if waiting {
        return Interrupted;
      }
      var pv := volumes[v.pv.name];
      if pv.bind == Bound {
        volumes := volumes[v.pv.name := pv.(bind := Released)];
      }
      return Done;
    }

    method DeletePV(v: ReclaimVolume) returns (r: Result)
      requires v.delete && v.pv.name != ""
      requires Key(v.pvc) in claims && v.pvc.uid != "" ==> claims[Key(v.pvc)].uid == v.pvc.uid && claims[Key(v.pvc)].terminating
      requires PVAccepted(State(), v, session)
      modifies `claims, `volumes, `gone, `hitch
      ensures Deleting(old(State()), v, State())
      ensures r == Done ==> v.pv.name !in volumes && DeletionAccepted(old(State()), v, session)
      ensures gone == if r == Done && v.pv.name in old(volumes) then old(gone)[v.pv.name := v.policy] else old(gone)
      ensures r == Refused ==> !DeletionAccepted(old(State()), v, session)
      ensures r == Interrupted ==> hitch
    {
      if v.pv.name !in volumes {
        return Done;
      }
      var pv := volumes[v.pv.name];
      if !IdentityMatches(pv, v, session) {
        return Refused;
      }
      if pv.bind == Bound {
        if pv.claim == None {
          return Refused;
        }
        var claim := pv.claim.value;
        if claim.namespace == "" || claim.name == "" || claim.uid == "" {
          return Refused;
        }
        if Key(claim) in claims && (claims[Key(claim)].uid != claim.uid || !claims[Key(claim)].terminating) {
          return Refused;
        }
        r := AwaitRelease(v);
        if r != Done {
          return;
        }
      }
      r := RestorePolicyAndDelete(v);
    }

    method RestorePolicyAndDelete(v: ReclaimVolume) returns (r: Result)
      requires v.delete && v.pv.name != "" && v.pv.name in volumes
      modifies `volumes, `gone, `hitch
      ensures Deleting(old(State()), v, State()) && claims == old(claims)
      ensures r == Done ==> v.pv.name !in volumes
      ensures gone == if r == Done then old(gone)[v.pv.name := v.policy] else old(gone)
      ensures
        var pv := old(volumes)[v.pv.name];
        var accepted := IdentityMatches(pv, v, session) && pv.bind in {Released, Available} && PolicyMatches(pv, v);
        (r == Done ==> accepted) && (r == Refused ==> !accepted)
      ensures r == Interrupted ==> hitch
    {
      var pv := volumes[v.pv.name];
      if pv.bind != Released && pv.bind != Available {
        return Refused;
      }
      if !ValidPolicy(v.policy) || !IdentityMatches(pv, v, session) || !PolicyMatches(pv, v) {
        return Refused;
      }
      var failed := Fails();
      if failed {
        return Interrupted;
      }
      volumes := volumes[v.pv.name := pv.(policy := v.policy)];
      var fenced := Fails();
      if fenced {
        return Interrupted;
      }
      gone := gone[v.pv.name := volumes[v.pv.name].policy];
      volumes := volumes - {v.pv.name};
      return Done;
    }

    /** Deletes the claim, then the volume. The controllers have removed the claim when the run is over. */
    method DeleteCopy(v: ReclaimVolume) returns (r: Result)
      requires v.delete && Preview(State(), v, session)
      modifies `claims, `volumes, `gone, `hitch
      ensures Deleting(old(State()), v, State())
      ensures r == Done ==> DeletionAccepted(old(State()), v, session)
      ensures r == Done ==> State() == PVRemoved(ClaimRemoved(old(State()), v), v)
      ensures gone == if r == Done && v.pv.name != "" && v.pv.name in old(volumes)
                      then old(gone)[v.pv.name := v.policy] else old(gone)
      ensures r == Refused ==> !DeletionAccepted(old(State()), v, session)
      ensures r == Interrupted ==> hitch
    {
      if v.pvc.uid != "" {
        r := DeleteClaim(v);
        if r != Done {
          return;
        }
      }
      if v.pv.name != "" {
        r := DeletePV(v);
        if r != Done {
          return;
        }
      }
      if v.pvc.uid != "" {
        claims := claims - {Key(v.pvc)};
      }
      r := Done;
    }

    method FinalizeClaim(v: ReclaimVolume) returns (r: Result)
      requires v.pvc.uid != ""
      modifies `claims, `hitch
      ensures State() == old(State()) || State() == ClaimFinalized(old(State()), v)
      ensures r == Done ==> State() == ClaimFinalized(old(State()), v)
      ensures r == Done ==> v.pvc.namespace != "" && v.pvc.name != "" && session != ""
      ensures r == Refused ==>
                || v.pvc.namespace == "" || v.pvc.name == "" || session == ""
                || !ClaimAccepted(old(State()), v, session)
      ensures r == Interrupted ==> hitch
    {
      if v.pvc.namespace == "" || v.pvc.name == "" || session == "" {
        return Refused;
      }
      var failed := Fails();
      if failed {
        return Interrupted;
      }
      if Key(v.pvc) !in claims {
        return Done;
      }
      var claim := claims[Key(v.pvc)];
      if claim.uid != v.pvc.uid {
        return Refused;
      }
      if !OwnerOrNone(At(claim.annotations, SESSION), session) || !OwnerOrNone(At(claim.labels, SESSION), session) {
        return Refused;
      }
      claims := claims[Key(v.pvc) := FinalizedClaim(claim, v.metadata)];
      var unacknowledged := Fails();
      return if unacknowledged then Interrupted else Done;
    }

    /** Refuses exactly what the preview of a finalization refuses. */
    method FinalizeActivePV(ref: ObjectRef, policy: Policy) returns (r: Result)
      requires ref.name in volumes
      modifies `volumes, `hitch
      ensures r == Refused ==> volumes == old(volumes) && !Finalizable(volumes[ref.name], ref.uid, session, policy)
      ensures r == Done ==>
                && Finalizable(old(volumes)[ref.name], ref.uid, session, policy)
                && volumes == old(volumes)[ref.name := FinalizedPV(old(volumes)[ref.name], policy)]
      ensures r == Interrupted ==>
                || volumes == old(volumes)
                || volumes == old(volumes)[ref.name := FinalizedPV(old(volumes)[ref.name], policy)]
      ensures r == Interrupted ==> hitch
    {
      if policy == NoPolicy {
        return Refused;
      }
      var failed := Fails();
      if failed {
        return Interrupted;
      }
      var pv := volumes[ref.name];
      if pv.uid != ref.uid {
        return Refused;
      }
      if pv.session == "" && pv.role == NoRole && pv.policy == policy && pv.original == NoPolicy {
        return Done;
      }
      if pv.session != session || !OwnedRole(pv.role) {
        return Refused;
      }
      pv := pv.(policy := policy, session := "", role := NoRole);
      if pv.managedBy == MANAGED_BY_VALUE {
        pv := pv.(managedBy := "");
      }
      pv := pv.(original := NoPolicy, paired := "");
      volumes := volumes[ref.name := pv];
      var unacknowledged := Fails();
      return if unacknowledged then Interrupted else Done;
    }

    method FinalizeCopy(v: ReclaimVolume) returns (r: Result)
      requires !v.delete && Preview(State(), v, session) && session != ""
      modifies `claims, `volumes, `hitch
      ensures
        || State() == old(State())
        || State() == ClaimFinalized(old(State()), v)
        || State() == PVFinalized(ClaimFinalized(old(State()), v), v)
      ensures r == Done ==> FinalizationAccepted(old(State()), v, session)
      ensures r == Done ==> State() == PVFinalized(ClaimFinalized(old(State()), v), v)
      ensures r == Refused ==> !FinalizationAccepted(old(State()), v, session)
      ensures r == Interrupted ==> hitch
    {
      if v.pvc.uid != "" {
        r := FinalizeClaim(v);
        if r != Done {
          return;
        }
      }
      if v.pv.name == "" || v.pv.name !in volumes {
        return Done;
      }
      r := FinalizeActivePV(v.pv, v.policy);
    }

    /** One copy: refused exactly when it is not acceptable, ended exactly where it should, stopped only on the way. */
    method ReclaimCopy(v: ReclaimVolume, finalize: bool) returns (r: Result)
      requires session != ""
      modifies `claims, `volumes, `gone, `hitch
      ensures OnTheWay(old(State()), v, finalize, State()) && Confined(old(State()), v, State())
      ensures r == Done ==> Accepts(old(State()), v, session, finalize) && State() == Final(old(State()), v, finalize)
      ensures gone == if r == Done && v.delete && !Skips(old(State()), v, finalize)
                         && v.pv.name != "" && v.pv.name in old(volumes)
                      then old(gone)[v.pv.name := v.policy] else old(gone)
      ensures r == Refused ==> !Accepts(old(State()), v, session, finalize)
      ensures r == Interrupted ==> hitch
    {
      hide Preview, DeletionAccepted, FinalizationAccepted;
      if (v.skipMissing && v.pv.name !in volumes) || (!v.delete && !finalize) {
        return Done;
      }
      r := Validate(v, finalize);
      if r != Done {
        return;
      }
      if v.delete {
        r := DeleteCopy(v);
      } else {
        r := FinalizeCopy(v);
      }
    }

    // ---------------------------------------------------------- all copies

    /** A kept volume whose claim is absent or going must outlive it. */
    method ProtectRetained(copies: seq<ReclaimVolume>) returns (ok: bool, protected: seq<ReclaimVolume>)
      modifies `hitch
      ensures !ok ==> hitch
      ensures ok ==> |protected| == |copies|
      ensures ok ==> forall i | 0 <= i < |copies| ::
                protected[i] == copies[i].(policy := protected[i].policy)
      ensures ok ==> forall i | 0 <= i < |copies| ::
                if !copies[i].delete && copies[i].pv.name != "" && copies[i].policy != NoPolicy
                   && !LastingClaim(claims, copies[i])
                then protected[i].policy == Retain
                else protected[i].policy == copies[i].policy
      ensures ok ==> forall i | 0 <= i < |copies| :: protected[i] == Protected(State(), copies[i])
    {
      protected := [];
      for i := 0 to |copies|
        invariant |protected| == i
        invariant forall j | 0 <= j < i :: protected[j] == Protected(State(), copies[j])
      {
        var v := copies[i];
        if !v.delete && v.pv.name != "" && v.policy != NoPolicy {
          if v.pvc.uid == "" {
            v := v.(policy := Retain);
          } else {
            var failed := Fails();
            if failed {
              return false, copies;
            }
            if Key(v.pvc) !in claims || claims[Key(v.pvc)].terminating {
              v := v.(policy := Retain);
            }
          }
        }
        protected := protected + [v];
      }
      ok := true;
    }

    method ValidateAll(copies: seq<ReclaimVolume>, finalize: bool) returns (r: Result)
      modifies `hitch
      ensures r == Done ==> forall v <- copies :: Skips(State(), v, finalize) || Preview(State(), v, session)
      ensures r == Refused ==> exists v <- copies :: !Skips(State(), v, finalize) && !Preview(State(), v, session)
      ensures r == Interrupted ==> hitch
    {
      hide Preview;
      for i := 0 to |copies|
        invariant forall j | 0 <= j < i :: Skips(State(), copies[j], finalize) || Preview(State(), copies[j], session)
      {
        r := Validate(copies[i], finalize);
        if r != Done {
          return;
        }
      }
      r := Done;
    }

    /** Only deletable copies disappear; when all is done they are gone and the kept ones released under their policy. */
    method ReclaimAll(copies: seq<ReclaimVolume>, finalize: bool) returns (r: Result)
      requires session != ""
      requires forall v <- copies :: v.delete ==> !v.skipMissing
      modifies `claims, `volumes, `gone, `hitch
      ensures Kept(old(volumes), copies, volumes)
      ensures r == Done && DistinctNames(copies) ==> AllEnded(old(volumes), copies, finalize, volumes)
      ensures r == Done && DistinctNames(copies) ==> GoneUnder(old(volumes), copies, gone)
      ensures r == Done && DistinctNames(copies) && DistinctClaims(copies) ==>
                ClaimsEnded(old(State()), copies, finalize, claims)
      ensures r == Interrupted ==> hitch
      ensures r == Refused && DistinctNames(copies) && DistinctClaims(copies) && (forall v <- copies :: !v.skipMissing) ==>
                exists v <- copies :: !Accepts(old(State()), v, session, finalize)
    {
      hide Kept, AllEnded, GoneUnder, ClaimsEnded, DistinctNames, DistinctClaims;
      hide Preview, DeletionAccepted, FinalizationAccepted, OnTheWay, Final, Confined, Accepts;
      NothingKept(volumes, finalize);
      assert GoneUnder(volumes, [], gone) by { NoneGone(volumes, gone); }
      NoClaimsEnded(State(), finalize);
      for i := 0 to |copies|
        invariant Kept(old(volumes), copies[..i], volumes)
        invariant DistinctNames(copies) ==> AllEnded(old(volumes), copies[..i], finalize, volumes)
        invariant DistinctNames(copies) ==> GoneUnder(old(volumes), copies[..i], gone)
        invariant DistinctNames(copies) && DistinctClaims(copies) ==>
                    ClaimsEnded(old(State()), copies[..i], finalize, claims) && Untouched(old(claims), copies[..i], claims)
      {
        ghost var c, under := State(), gone;
        r := ReclaimCopy(copies[i], finalize);
        KeptStep(old(volumes), copies, i, c, State());
        if r != Done {
          if r == Refused && DistinctNames(copies) && DistinctClaims(copies) && !copies[i].skipMissing {
            SameVerdict(old(State()), copies, i, c, session, finalize);
            assert copies[i] in copies;
          }
          KeptPrefix(old(volumes), copies, i + 1, volumes);
          return;
        }
        if DistinctNames(copies) {
          GoneStep(old(volumes), copies, i, finalize, c, under, gone);
          EndedStep(old(volumes), copies, i, finalize, c, session);
          if DistinctClaims(copies) {
            ClaimsStep(old(State()), copies, i, finalize, c);
          }
        }
      }
      assert copies[..|copies|] == copies;
      r := Done;
    }

    // ----------------------------------------------------------- cleanup

    /** Ownership of a source that was never reserved against is given back; no volume goes. */
    method ReleaseSource(source: ObjectRef, pv: ObjectRef, plannedPolicy: Policy) returns (r: Result)
      modifies `claims, `volumes, `hitch
      ensures volumes.Keys == old(volumes).Keys && volumes - {pv.name} == old(volumes) - {pv.name}
      ensures source.name == "" || pv.name == "" ==> State() == old(State())
      ensures claims.Keys == old(claims).Keys
      ensures forall key <- claims :: claims[key].terminating == old(claims)[key].terminating
      ensures r == Done && source.name != "" && pv.name != "" && pv.name in old(volumes) && session != "" ==>
                volumes[pv.name].session != session
      ensures r == Done && source.name != "" && pv.name != "" && pv.name in old(volumes)
              && old(volumes)[pv.name].session == session
              && (Key(source) !in old(claims) || old(claims)[Key(source)].terminating) ==>
                volumes[pv.name].policy == Retain
      ensures r == Done && source.name != "" && pv.name != "" && pv.name in old(volumes)
              && old(volumes)[pv.name].session == session
              && source.uid != "" && Key(source) in old(claims) && !old(claims)[Key(source)].terminating ==>
                volumes[pv.name].policy ==
                if old(volumes)[pv.name].original != NoPolicy then old(volumes)[pv.name].original else plannedPolicy
      ensures r == Done && source.name != "" && pv.name != "" ==> ClaimReleased(claims, source, session)
      ensures OnlyUnmarked(old(claims), claims)
      ensures r == Interrupted ==> hitch
      ensures State() != old(State()) ==>
                && (Key(source) in old(claims) ==> old(claims)[Key(source)].uid == source.uid)
                && (pv.name in old(volumes) ==>
                      && old(volumes)[pv.name].uid == pv.uid
                      && (old(volumes)[pv.name].session == session ==> old(volumes)[pv.name].role == SourceRole))
    {
      hide SourceReleasable;
      ReleasableIsOwn(State(), session, source, pv, plannedPolicy);
      if source.name == "" || pv.name == "" {
        return Done;
      }
      if !SourceReleasable(Cluster(claims, volumes), session, source, pv, plannedPolicy) {
        return Refused;
      }
      r := ReleaseClaim(source);
      if r != Done || pv.name !in volumes {
        return;
      }
      var live := volumes[pv.name];
      if live.uid != pv.uid {
        return Refused;
      }
      var policy := plannedPolicy;
      if live.original != NoPolicy {
        policy := live.original;
      }
      if live.session != session {
        return Done;
      }
      if live.role != SourceRole {
        return Refused;
      }
      if policy != NoPolicy
         && (source.uid == "" || Key(source) !in claims || claims[Key(source)].terminating) {
        policy := Retain;
      }
      r := FinalizeActivePV(pv, policy);
    }

    method ReleaseClaim(ref: ObjectRef) returns (r: Result)
      modifies `claims, `hitch
      ensures claims.Keys == old(claims).Keys
      ensures forall key <- claims :: claims[key].terminating == old(claims)[key].terminating
      ensures r == Done ==> ClaimReleased(claims, ref, session)
      ensures OnlyUnmarked(old(claims), claims)
      ensures r == Interrupted ==> hitch
    {
      if ref.namespace == "" || ref.name == "" || ref.uid == "" || session == "" {
        return Refused;
      }
      var failed := Fails();
      if failed {
        return Interrupted;
      }
      if Key(ref) !in claims {
        return Done;
      }
      var claim := claims[Key(ref)];
      if claim.uid != ref.uid {
        return Refused;
      }
      if At(claim.annotations, SESSION) == session {
        claims := claims[Key(ref) := claim.(annotations := claim.annotations - {SESSION})];
      }
      return Done;
    }

    /** Resolves every volume against the live objects, without changing any. */
    method PrepareAll(phase: Phase, namespace: string, plan: seq<PlannedCopy>,
                      checkpoints: seq<ClusterReservation>, actives: seq<Option<ObjectRef>>,
                      deleteUnused: bool, terminal: bool)
      returns (ok: bool, pairs: seq<Pair>, copies: seq<ReclaimVolume>)
      requires phase in TERMINAL_PHASES && |plan| == |checkpoints| == |actives|
      ensures !ok ==> exists k | 0 <= k < |plan| ::
                !Preparable(State(), session, phase, QualifiedRef(plan[k].spec.sourcePVC, namespace), namespace,
                            plan[k], checkpoints[k], actives[k], terminal)
      ensures ok ==> |pairs| == |plan| && copies == Flat(pairs)
      ensures ok ==> forall k | 0 <= k < |plan| ::
                && Keeps(phase, plan[k], pairs[k])
                && ResolvedTo(State(), session, phase, namespace, plan[k], checkpoints[k], actives[k],
                              deleteUnused, terminal, pairs[k])
    {
      hide PairFor, Keeps, ResolvedTo, Preparable;
      pairs, copies := [], [];
      for k := 0 to |plan|
        invariant |pairs| == k && copies == Flat(pairs)
        invariant forall j | 0 <= j < k ::
                    && Keeps(phase, plan[j], pairs[j])
                    && ResolvedTo(State(), session, phase, namespace, plan[j], checkpoints[j], actives[j],
                                  deleteUnused, terminal, pairs[j])
      {
        var recovered, pair;
        ok, recovered, pair := PrepareVolume(
          Cluster(claims, volumes), session, phase, namespace, namespace,
          plan[k], checkpoints[k], actives[k], deleteUnused, terminal);
        if !ok {
          return;
        }
        PairKeeps(Cluster(claims, volumes), phase, namespace, plan[k], recovered, actives[k], deleteUnused, pair);
        assert ResolvedTo(State(), session, phase, namespace, plan[k], checkpoints[k], actives[k],
                          deleteUnused, terminal, pair) by {
          ResolvedWith(State(), session, phase, namespace, plan[k], checkpoints[k], actives[k],
                       deleteUnused, terminal, recovered, pair);
        }
        FlatAppend(pairs, pair);
        pairs := pairs + [pair];
        copies := copies + Copies(pair);
      }
      ok := true;
    }

    /** Every source that nothing was reserved for is given back. */
    method ReleaseSources(phase: Phase, namespace: string, plan: seq<PlannedCopy>,
                          checkpoints: seq<ClusterReservation>, actives: seq<Option<ObjectRef>>)
      returns (r: Result)
      requires |plan| == |checkpoints| == |actives| && session != ""
      modifies `claims, `volumes, `hitch
      ensures volumes.Keys == old(volumes).Keys && OnlyUnmarked(old(claims), claims)
      ensures phase != Aborted ==> r == Done && State() == old(State())
      ensures r == Done && phase == Aborted ==> SourcesFree(plan, checkpoints, actives, |plan|, volumes, session)
      ensures r == Interrupted ==> hitch
    {
      r := Done;
      if phase != Aborted {
        return;
      }
      for k := 0 to |plan|
        invariant volumes.Keys == old(volumes).Keys && r == Done && OnlyUnmarked(old(claims), claims)
        invariant SourcesFree(plan, checkpoints, actives, k, volumes, session)
      {
        if !checkpoints[k].reserved && actives[k] == None {
          ghost var before, claimed := volumes, claims;
          r := ReleaseSource(QualifiedRef(plan[k].spec.sourcePVC, namespace),
                             QualifiedRef(plan[k].spec.sourcePV, ""), plan[k].policy);
          UnmarkedTwice(old(claims), claimed, claims);
          if r != Done {
            return;
          }
          OneMoreFree(plan, checkpoints, actives, k, before, volumes, session);
        }
      }
    }

    /**
     Cleanup in a terminal phase, stopped anywhere or run to its end: the volume in use
     is still there, for every volume of the plan, and nothing has changed unless every
     copy had passed its dry run. A finished run has deleted what it was to delete and
     given the rest back: a volume under the policy its request resolved if a lasting
     claim holds it and as Retain otherwise, a claim with its recorded metadata.
     */
    method Cleanup(phase: Phase, namespace: string, plan: seq<PlannedCopy>,
                   checkpoints: seq<ClusterReservation>, actives: seq<Option<ObjectRef>>,
                   deleteUnused: bool, finalize: bool, terminal: bool)
      returns (r: Result, pairs: seq<Pair>)
      requires session != "" && phase in TERMINAL_PHASES && |plan| == |checkpoints| == |actives|
      modifies `claims, `volumes, `gone, `hitch
      ensures |pairs| == |plan| && SeparatePVs(plan, pairs) ==>
                forall k | 0 <= k < |plan| && InUseName(phase, plan[k], pairs[k]) in old(volumes) ::
                  InUseName(phase, plan[k], pairs[k]) in volumes
      ensures forall name <- volumes :: name in old(volumes)
      ensures r == Done || State() != old(State()) ==>
                && |pairs| == |plan|
                && (forall k | 0 <= k < |plan| ::
                      ResolvedTo(old(State()), session, phase, namespace, plan[k], checkpoints[k], actives[k],
                                 deleteUnused, terminal, pairs[k]))
                && (forall v <- Flat(pairs) :: DryRunPassed(old(State()), v, finalize, session))
      ensures r == Done && DistinctNames(Flat(pairs)) ==>
                forall v <- Flat(pairs) :: VolumeEnded(old(State()), v, finalize, volumes, gone)
      ensures r == Done && DistinctNames(Flat(pairs)) && DistinctClaims(Flat(pairs)) ==>
                forall v <- Flat(pairs) :: ClaimEnded(old(State()), v, finalize, claims)
      ensures r == Done && phase == Aborted ==>
                OthersFree(plan, checkpoints, actives, Flat(pairs), volumes, session)
      ensures r == Interrupted ==> hitch
      ensures r == Refused && phase != Aborted && |pairs| == |plan|
              && DistinctNames(Flat(pairs)) && DistinctClaims(Flat(pairs)) ==>
                exists v <- Flat(pairs) :: !Accepts(old(State()), Protected(old(State()), v), session, finalize)
      ensures r == Refused && |pairs| != |plan| ==> exists k | 0 <= k < |plan| ::
                !Preparable(old(State()), session, phase, QualifiedRef(plan[k].spec.sourcePVC, namespace), namespace,
                            plan[k], checkpoints[k], actives[k], terminal)
    {
      hide PairFor, Keeps, Kept, AllEnded, GoneUnder, ClaimsEnded, CopyEnded, VolumeEnded, ClaimEnded;
      hide DistinctNames, DistinctClaims, Preparable, Accepts;
      hide SeparatePVs, SourcesFree, OthersFree, Skips, Preview, Flat, ResolvedTo, DryRunPassed, OnlyUnmarked, Protected;
      var ok, copies;
      ok, pairs, copies := PrepareAll(phase, namespace, plan, checkpoints, actives, deleteUnused, terminal);
      if !ok {
        return Refused, [];
      }
      var protected;
      ok, protected := ProtectRetained(copies);
      if !ok {
        return Interrupted, pairs;
      }
      r := ValidateAll(protected, finalize);
      if r != Done {
        if r == Refused {
          RefusedCopy(State(), copies, protected, session, finalize);
        }
        return;
      }
      AllPassed(State(), copies, protected, finalize, session);
      r := ReleaseSources(phase, namespace, plan, checkpoints, actives);
      if r != Done {
        return;
      }
      assert Alike(copies, protected);
      AlikeIsDeletable(phase, plan, pairs, protected);
      ghost var mid := State();
      r := ReclaimAll(protected, finalize);
      if SeparatePVs(plan, pairs) {
        CleanupKeeps(phase, plan, pairs, protected, mid.volumes, volumes);
      }
      KeptOnly(mid.volumes, protected, volumes);
      if r == Refused && phase != Aborted {
        RefusedCopy(old(State()), copies, protected, session, finalize);
        AlikeIsDistinct(copies, protected);
      }
      if r == Done {
        CleanupEnds(old(State()), copies, protected, finalize, mid, State(), gone);
        if phase == Aborted {
          FreeStays(plan, checkpoints, actives, copies, protected, mid.volumes, volumes, session);
        }
      }
    }
  }

  /** The copy has a claim that is there to stay. */
  predicate LastingClaim(claims: map<ClaimKey, Claim>, v: ReclaimVolume) {
    v.pvc.uid != "" && Key(v.pvc) in claims && !claims[Key(v.pvc)].terminating
  }

  /** A volume to be kept stays under its policy while a lasting claim holds it, and outlives the workflow otherwise. */
  function Protected(c: Cluster, v: ReclaimVolume): ReclaimVolume {
    if v.delete || v.pv.name == "" || v.policy == NoPolicy || LastingClaim(c.claims, v) then v
    else v.(policy := Retain)
  }

  /** A source volume that nothing was reserved for does not carry the session any more. */
  predicate SourcesFree(plan: seq<PlannedCopy>, checkpoints: seq<ClusterReservation>, actives: seq<Option<ObjectRef>>,
                        n: nat, volumes: map<string, PV>, session: string)
    requires n <= |plan| == |checkpoints| == |actives|
  {
    forall k | 0 <= k < n && !checkpoints[k].reserved && actives[k] == None && Named(plan[k]) ::
      plan[k].spec.sourcePV.name in volumes ==> volumes[plan[k].spec.sourcePV.name].session != session
  }

  predicate Named(planned: PlannedCopy) {
    planned.spec.sourcePVC.name != "" && planned.spec.sourcePV.name != ""
  }

  /** What is given back is the planned claim and volume, the volume in the role of a source. */
  lemma ReleasableIsOwn(c: Cluster, session: string, source: ObjectRef, pv: ObjectRef, policy: Policy)
    ensures SourceReleasable(c, session, source, pv, policy) && source.name != "" && pv.name != "" ==>
              && (Key(source) in c.claims ==> c.claims[Key(source)].uid == source.uid)
              && (pv.name in c.volumes ==>
                    && c.volumes[pv.name].uid == pv.uid
                    && (c.volumes[pv.name].session == session ==> c.volumes[pv.name].role == SourceRole))
  {
  }

  lemma OneMoreFree(plan: seq<PlannedCopy>, checkpoints: seq<ClusterReservation>, actives: seq<Option<ObjectRef>>,
                    k: nat, before: map<string, PV>, after: map<string, PV>, session: string)
    requires k < |plan| == |checkpoints| == |actives| && SourcesFree(plan, checkpoints, actives, k, before, session)
    requires before.Keys == after.Keys
    requires before - {plan[k].spec.sourcePV.name} == after - {plan[k].spec.sourcePV.name}
    requires Named(plan[k]) && plan[k].spec.sourcePV.name in after ==>
               after[plan[k].spec.sourcePV.name].session != session
    requires !Named(plan[k]) ==> after == before
    ensures SourcesFree(plan, checkpoints, actives, k + 1, after, session)
  {
    forall j | 0 <= j < k && !checkpoints[j].reserved && actives[j] == None && Named(plan[j])
               && plan[j].spec.sourcePV.name in after
      ensures after[plan[j].spec.sourcePV.name].session != session
    {
      var name := plan[j].spec.sourcePV.name;
      if name != plan[k].spec.sourcePV.name {
        assert name in before - {plan[k].spec.sourcePV.name};
        assert before[name] == (before - {plan[k].spec.sourcePV.name})[name];
      }
    }
  }

  /** As above, at the end of the cleanup: of the sources that are not themselves copies to be reclaimed. */
  predicate OthersFree(plan: seq<PlannedCopy>, checkpoints: seq<ClusterReservation>, actives: seq<Option<ObjectRef>>,
                       copies: seq<ReclaimVolume>, volumes: map<string, PV>, session: string)
    requires |plan| == |checkpoints| == |actives|
  {
    forall k | 0 <= k < |plan| && !checkpoints[k].reserved && actives[k] == None && Named(plan[k])
               && (forall v <- copies :: v.pv.name != plan[k].spec.sourcePV.name) ::
      plan[k].spec.sourcePV.name in volumes ==> volumes[plan[k].spec.sourcePV.name].session != session
  }

  lemma FreeStays(plan: seq<PlannedCopy>, checkpoints: seq<ClusterReservation>, actives: seq<Option<ObjectRef>>,
                  copies: seq<ReclaimVolume>, protected: seq<ReclaimVolume>,
                  before: map<string, PV>, after: map<string, PV>, session: string)
    requires |plan| == |checkpoints| == |actives| && Alike(copies, protected)
    requires SourcesFree(plan, checkpoints, actives, |plan|, before, session) && Kept(before, protected, after)
    ensures OthersFree(plan, checkpoints, actives, copies, after, session)
  {
    forall k | 0 <= k < |plan| && (forall v <- copies :: v.pv.name != plan[k].spec.sourcePV.name)
      ensures forall v <- protected :: v.pv.name != plan[k].spec.sourcePV.name
    {
      forall v | v in protected ensures v.pv.name != plan[k].spec.sourcePV.name {
        var i :| 0 <= i < |protected| && protected[i] == v;
        assert copies[i] in copies;
      }
    }
  }

  /** The dry run of a copy, with the policy it will be left under. */
  predicate DryRunPassed(c: Cluster, v: ReclaimVolume, finalize: bool, session: string) {
    Skips(c, Protected(c, v), finalize) || Preview(c, Protected(c, v), session)
  }

  lemma AllPassed(c: Cluster, copies: seq<ReclaimVolume>, protected: seq<ReclaimVolume>, finalize: bool, session: string)
    requires |copies| == |protected| && forall i | 0 <= i < |copies| :: protected[i] == Protected(c, copies[i])
    requires forall v <- protected :: Skips(c, v, finalize) || Preview(c, v, session)
    ensures forall v <- copies :: DryRunPassed(c, v, finalize, session)
  {
    hide Skips, Preview;
    forall v | v in copies ensures DryRunPassed(c, v, finalize, session) {
      var i :| 0 <= i < |copies| && copies[i] == v;
      assert protected[i] in protected;
    }
  }

  /** No volume appears, one disappears only as a deletable copy, and one that is no copy is not changed. */
  predicate Kept(before: map<string, PV>, copies: seq<ReclaimVolume>, after: map<string, PV>) {
    && (forall name <- after :: name in before)
    && (forall name <- before :: (forall v <- copies :: v.delete ==> v.pv.name != name) ==> name in after)
    && (forall name <- after :: (forall v <- copies :: v.pv.name != name) ==> after[name] == before[name])
  }

  predicate DistinctNames(copies: seq<ReclaimVolume>) {
    forall i, j | 0 <= i < j < |copies| :: copies[i].pv.name != "" ==> copies[i].pv.name != copies[j].pv.name
  }

  /** Released from the workflow, under the given policy. */
  predicate Ended(pv: PV, policy: Policy) {
    pv.session == "" && pv.role == NoRole && pv.policy == policy && pv.original == NoPolicy
  }

  predicate CopyEnded(before: map<string, PV>, v: ReclaimVolume, finalize: bool, after: map<string, PV>) {
    && (v.delete && v.pv.name != "" ==> v.pv.name !in after)
    && (!v.delete && finalize && v.pv.name != "" && v.pv.name in before ==>
          v.pv.name in after && Ended(after[v.pv.name], v.policy))
  }

  predicate AllEnded(before: map<string, PV>, copies: seq<ReclaimVolume>, finalize: bool, after: map<string, PV>) {
    forall i | 0 <= i < |copies| :: CopyEnded(before, copies[i], finalize, after)
  }

  /** A deleted volume went under the policy of its request. */
  predicate GoneUnder(before: map<string, PV>, copies: seq<ReclaimVolume>, gone: map<string, Policy>) {
    forall i | 0 <= i < |copies| && copies[i].delete && copies[i].pv.name != "" && copies[i].pv.name in before ::
      copies[i].pv.name in gone && gone[copies[i].pv.name] == copies[i].policy
  }

  lemma NoneGone(before: map<string, PV>, gone: map<string, Policy>)
    ensures GoneUnder(before, [], gone)
  {
  }

  lemma GoneStep(before: map<string, PV>, copies: seq<ReclaimVolume>, i: nat, finalize: bool, c: Cluster,
                 under: map<string, Policy>, gone: map<string, Policy>)
    requires i < |copies| && DistinctNames(copies) && Kept(before, copies[..i], c.volumes)
    requires GoneUnder(before, copies[..i], under) && (copies[i].delete ==> !copies[i].skipMissing)
    requires gone == if copies[i].delete && !Skips(c, copies[i], finalize)
                        && copies[i].pv.name != "" && copies[i].pv.name in c.volumes
                     then under[copies[i].pv.name := copies[i].policy] else under
    ensures GoneUnder(before, copies[..i + 1], gone)
  {
    if copies[i].pv.name != "" && copies[i].pv.name in before {
      StillThere(before, copies, i, c.volumes);
    }
    forall j | 0 <= j < i + 1 && copies[j].delete && copies[j].pv.name != "" && copies[j].pv.name in before
      ensures copies[j].pv.name in gone && gone[copies[j].pv.name] == copies[j].policy
    {
      assert j < i ==> copies[..i][j] == copies[j];
    }
  }

  predicate DistinctClaims(copies: seq<ReclaimVolume>) {
    forall i, j | 0 <= i < j < |copies| ::
      copies[i].pvc.uid != "" && copies[j].pvc.uid != "" ==> Key(copies[i].pvc) != Key(copies[j].pvc)
  }

  /** The claim of a deleted copy is gone; that of a kept one, unless it is skipped, has its recorded metadata back. */
  predicate ClaimEnded(before: Cluster, v: ReclaimVolume, finalize: bool, after: map<ClaimKey, Claim>) {
    v.pvc.uid != "" ==>
      && (v.delete ==> Key(v.pvc) !in after)
      && (!v.delete && finalize && Key(v.pvc) in before.claims
          && (v.skipMissing ==> v.pv.name != "" && v.pv.name in before.volumes) ==>
            && Key(v.pvc) in after
            && after[Key(v.pvc)] == FinalizedClaim(before.claims[Key(v.pvc)], v.metadata))
  }

  predicate ClaimsEnded(before: Cluster, copies: seq<ReclaimVolume>, finalize: bool, after: map<ClaimKey, Claim>) {
    forall i | 0 <= i < |copies| :: ClaimEnded(before, copies[i], finalize, after)
  }

  /** A claim that belongs to no copy is as it was, and none appears. */
  predicate Untouched(before: map<ClaimKey, Claim>, copies: seq<ReclaimVolume>, after: map<ClaimKey, Claim>) {
    && (forall key <- after :: key in before)
    && (forall key <- before :: (forall v <- copies :: v.pvc.uid != "" ==> Key(v.pvc) != key) ==>
          key in after && after[key] == before[key])
  }

  lemma NoClaimsEnded(c: Cluster, finalize: bool)
    ensures ClaimsEnded(c, [], finalize, c.claims) && Untouched(c.claims, [], c.claims)
  {
  }

  /** What the end of one copy means for the claims. */
  lemma FinalClaims(c: Cluster, v: ReclaimVolume, finalize: bool)
    requires v.delete ==> !v.skipMissing
    ensures ClaimEnded(c, v, finalize, Final(c, v, finalize).claims)
    ensures forall key <- Final(c, v, finalize).claims :: key in c.claims
    ensures forall key <- c.claims :: v.pvc.uid == "" || Key(v.pvc) != key ==>
              key in Final(c, v, finalize).claims && Final(c, v, finalize).claims[key] == c.claims[key]
  {
  }

  lemma UntouchedStep(before: map<ClaimKey, Claim>, copies: seq<ReclaimVolume>, i: nat, finalize: bool, c: Cluster)
    requires i < |copies| && Untouched(before, copies[..i], c.claims) && (copies[i].delete ==> !copies[i].skipMissing)
    ensures Untouched(before, copies[..i + 1], Final(c, copies[i], finalize).claims)
  {
    hide Final;
    FinalClaims(c, copies[i], finalize);
    assert copies[i] in copies[..i + 1];
    assert forall w <- copies[..i] :: w in copies[..i + 1];
  }

  lemma ClaimsStep(before: Cluster, copies: seq<ReclaimVolume>, i: nat, finalize: bool, c: Cluster)
    requires i < |copies| && DistinctNames(copies) && DistinctClaims(copies)
    requires copies[i].delete ==> !copies[i].skipMissing
    requires Kept(before.volumes, copies[..i], c.volumes) && Untouched(before.claims, copies[..i], c.claims)
    requires ClaimsEnded(before, copies[..i], finalize, c.claims)
    ensures ClaimsEnded(before, copies[..i + 1], finalize, Final(c, copies[i], finalize).claims)
    ensures Untouched(before.claims, copies[..i + 1], Final(c, copies[i], finalize).claims)
  {
    hide Final, Untouched;
    var v := copies[i];
    var d := Final(c, v, finalize);
    FinalClaims(c, v, finalize);
    UntouchedStep(before.claims, copies, i, finalize, c);
    forall j | 0 <= j < i + 1 ensures ClaimEnded(before, copies[j], finalize, d.claims) {
      if j < i {
        assert ClaimEnded(before, copies[..i][j], finalize, c.claims);
      } else {
        OwnClaim(before, copies, i, c);
      }
    }
  }

  /** A copy finds its own claim, and its own volume, as they were. */
  lemma OwnClaim(before: Cluster, copies: seq<ReclaimVolume>, i: nat, c: Cluster)
    requires i < |copies| && DistinctNames(copies) && DistinctClaims(copies)
    requires Kept(before.volumes, copies[..i], c.volumes) && Untouched(before.claims, copies[..i], c.claims)
    ensures copies[i].pvc.uid != "" && Key(copies[i].pvc) in before.claims ==>
              && Key(copies[i].pvc) in c.claims
              && c.claims[Key(copies[i].pvc)] == before.claims[Key(copies[i].pvc)]
    ensures copies[i].pv.name != "" && copies[i].pv.name in before.volumes ==> copies[i].pv.name in c.volumes
  {
    if copies[i].pv.name != "" && copies[i].pv.name in before.volumes {
      StillThere(before.volumes, copies, i, c.volumes);
    }
    if copies[i].pvc.uid != "" {
      forall w | w in copies[..i] ensures w.pvc.uid != "" ==> Key(w.pvc) != Key(copies[i].pvc) {
        var k :| 0 <= k < i && copies[..i][k] == w;
        assert copies[k] == w;
      }
    }
  }

  /** Each copy finds its claim and its volume as they were, so the verdict on it is the one it had at the start. */
  lemma SameVerdict(before: Cluster, copies: seq<ReclaimVolume>, i: nat, c: Cluster, session: string, finalize: bool)
    requires i < |copies| && DistinctNames(copies) && DistinctClaims(copies) && !copies[i].skipMissing
    requires Kept(before.volumes, copies[..i], c.volumes) && Untouched(before.claims, copies[..i], c.claims)
    ensures Accepts(before, copies[i], session, finalize) ==> Accepts(c, copies[i], session, finalize)
  {
    OwnClaim(before, copies, i, c);
    OwnVolume(before.volumes, copies, i, c.volumes);
    var v := copies[i];
    assert v.pvc.uid != "" && Key(v.pvc) in c.claims ==> Key(v.pvc) in before.claims;
    SameObjects(before, c, v, session, finalize);
  }

  lemma OwnVolume(before: map<string, PV>, copies: seq<ReclaimVolume>, i: nat, now: map<string, PV>)
    requires i < |copies| && DistinctNames(copies) && Kept(before, copies[..i], now)
    ensures
      var name := copies[i].pv.name;
      name != "" ==> (name in now <==> name in before) && (name in now ==> now[name] == before[name])
  {
    var name := copies[i].pv.name;
    if name != "" {
      forall w | w in copies[..i] ensures w.pv.name != name {
        var k :| 0 <= k < i && copies[..i][k] == w;
        assert copies[k] == w;
      }
    }
  }

  lemma SameObjects(b: Cluster, c: Cluster, v: ReclaimVolume, session: string, finalize: bool)
    requires v.pvc.uid != "" ==>
               && (Key(v.pvc) in b.claims <==> Key(v.pvc) in c.claims)
               && (Key(v.pvc) in b.claims ==> c.claims[Key(v.pvc)] == b.claims[Key(v.pvc)])
    requires v.pv.name != "" ==>
               && (v.pv.name in b.volumes <==> v.pv.name in c.volumes)
               && (v.pv.name in b.volumes ==> c.volumes[v.pv.name] == b.volumes[v.pv.name])
    requires !v.skipMissing
    ensures Accepts(b, v, session, finalize) ==> Accepts(c, v, session, finalize)
  {
  }

  /** A refused copy, protected or not, is one of the copies. */
  lemma RefusedCopy(c: Cluster, copies: seq<ReclaimVolume>, protected: seq<ReclaimVolume>, session: string, finalize: bool)
    requires |copies| == |protected| && forall i | 0 <= i < |copies| :: protected[i] == Protected(c, copies[i])
    ensures (exists v <- protected :: !Accepts(c, v, session, finalize)) ==>
              exists v <- copies :: !Accepts(c, Protected(c, v), session, finalize)
    ensures (exists v <- protected :: !Skips(c, v, finalize) && !Preview(c, v, session)) ==>
              exists v <- copies :: !Accepts(c, Protected(c, v), session, finalize)
  {
    hide Skips, Preview, DeletionAccepted, FinalizationAccepted, Protected;
    forall v | v in protected && !Accepts(c, v, session, finalize)
      ensures exists w <- copies :: !Accepts(c, Protected(c, w), session, finalize)
    {
      var i :| 0 <= i < |protected| && protected[i] == v;
      assert copies[i] in copies;
    }
  }

  lemma NothingKept(volumes: map<string, PV>, finalize: bool)
    ensures Kept(volumes, [], volumes) && AllEnded(volumes, [], finalize, volumes)
  {
  }

  lemma KeptPrefix(before: map<string, PV>, copies: seq<ReclaimVolume>, i: nat, after: map<string, PV>)
    requires i <= |copies| && Kept(before, copies[..i], after)
    ensures Kept(before, copies, after)
  {
    assert forall v <- copies[..i] :: v in copies;
  }

  lemma KeptStep(before: map<string, PV>, copies: seq<ReclaimVolume>, i: nat, c: Cluster, d: Cluster)
    requires i < |copies| && Kept(before, copies[..i], c.volumes) && Confined(c, copies[i], d)
    ensures Kept(before, copies[..i + 1], d.volumes)
  {
    var v := copies[i];
    assert v in copies[..i + 1];
    assert forall w <- copies[..i] :: w in copies[..i + 1];
    forall name | name in d.volumes && name != v.pv.name ensures name in c.volumes && d.volumes[name] == c.volumes[name] {
      assert name in d.volumes - {v.pv.name};
    }
    forall name | name in c.volumes && name != v.pv.name ensures name in d.volumes {
      assert name in c.volumes - {v.pv.name};
    }
  }

  lemma FinalEnds(c: Cluster, v: ReclaimVolume, session: string, finalize: bool)
    requires session != "" && Accepts(c, v, session, finalize)
    requires v.delete ==> !v.skipMissing
    ensures CopyEnded(c.volumes, v, finalize, Final(c, v, finalize).volumes)
  {
  }

  lemma EndedStep(before: map<string, PV>, copies: seq<ReclaimVolume>, i: nat, finalize: bool, c: Cluster, session: string)
    requires i < |copies| && DistinctNames(copies) && session != ""
    requires copies[i].delete ==> !copies[i].skipMissing
    requires Kept(before, copies[..i], c.volumes) && AllEnded(before, copies[..i], finalize, c.volumes)
    requires Accepts(c, copies[i], session, finalize)
    ensures AllEnded(before, copies[..i + 1], finalize, Final(c, copies[i], finalize).volumes)
  {
    hide Accepts;
    var v := copies[i];
    var d := Final(c, v, finalize);
    FinalEnds(c, v, session, finalize);
    OthersStay(c, v, finalize);
    forall j | 0 <= j < i + 1 ensures CopyEnded(before, copies[j], finalize, d.volumes) {
      if j == i {
        if v.pv.name != "" && v.pv.name in before {
          StillThere(before, copies, i, c.volumes);
        }
      } else {
        assert CopyEnded(before, copies[..i][j], finalize, c.volumes);
      }
    }
  }

  lemma OthersStay(c: Cluster, v: ReclaimVolume, finalize: bool)
    ensures forall name: string | name != v.pv.name ::
              && (name in Final(c, v, finalize).volumes <==> name in c.volumes)
              && (name in c.volumes ==> Final(c, v, finalize).volumes[name] == c.volumes[name])
  {
  }

  lemma StillThere(before: map<string, PV>, copies: seq<ReclaimVolume>, i: nat, now: map<string, PV>)
    requires i < |copies| && DistinctNames(copies) && Kept(before, copies[..i], now) && copies[i].pv.name != ""
    requires copies[i].pv.name in before
    ensures copies[i].pv.name in now
  {
    forall w | w in copies[..i] ensures w.delete ==> w.pv.name != copies[i].pv.name {
      var k :| 0 <= k < i && copies[..i][k] == w;
      assert copies[k] == w;
    }
  }

  // -------------------------------------------------------- whole cleanups

  function Copies(pair: Pair): seq<ReclaimVolume> {
    (if pair.source.Some? then [pair.source.value] else [])
    + (if pair.destination.Some? then [pair.destination.value] else [])
  }

  function Flat(pairs: seq<Pair>): seq<ReclaimVolume> {
    if pairs == [] then [] else Flat(pairs[..|pairs| - 1]) + Copies(pairs[|pairs| - 1])
  }

  lemma FlatAppend(pairs: seq<Pair>, pair: Pair)
    ensures Flat(pairs + [pair]) == Flat(pairs) + Copies(pair)
  {
    assert (pairs + [pair])[..|pairs|] == pairs;
  }

  lemma {:induction false} FlatMember(pairs: seq<Pair>, v: ReclaimVolume) returns (k: nat)
    requires v in Flat(pairs)
    ensures k < |pairs| && v in Copies(pairs[k])
  {
    if v in Copies(pairs[|pairs| - 1]) {
      k := |pairs| - 1;
    } else {
      k := FlatMember(pairs[..|pairs| - 1], v);
    }
  }

  /** The pair is the one the record and the live objects call for. */
  ghost predicate ResolvedTo(c: Cluster, session: string, phase: Phase, namespace: string, planned: PlannedCopy,
                             checkpoint: ClusterReservation, active: Option<ObjectRef>, deleteUnused: bool,
                             terminal: bool, pair: Pair) {
    var source := QualifiedRef(planned.spec.sourcePVC, namespace);
    var found := Resolved(c, session, phase, source, namespace, planned, checkpoint, terminal);
    found.Some? && PairFor(c, phase, source, planned, found.value, active, deleteUnused, pair)
  }

  lemma ResolvedWith(c: Cluster, session: string, phase: Phase, namespace: string, planned: PlannedCopy,
                     checkpoint: ClusterReservation, active: Option<ObjectRef>, deleteUnused: bool,
                     terminal: bool, recovered: ClusterReservation, pair: Pair)
    requires Some(recovered) == Resolved(c, session, phase, QualifiedRef(planned.spec.sourcePVC, namespace),
                                         namespace, planned, checkpoint, terminal)
    requires PairFor(c, phase, QualifiedRef(planned.spec.sourcePVC, namespace), planned, recovered, active,
                     deleteUnused, pair)
    ensures ResolvedTo(c, session, phase, namespace, planned, checkpoint, active, deleteUnused, terminal, pair)
  {
    hide Resolved, PairFor;
  }

  /** Each pair keeps its in-use copy and deletes, if at all, the other. */
  predicate Keeps(phase: Phase, planned: PlannedCopy, pair: Pair) {
    && (pair.source.Some? ==> pair.source.value.pv.name == planned.spec.sourcePV.name)
    && (InUse(phase, pair).Some? ==> !InUse(phase, pair).value.delete)
    && (forall v <- Copies(pair) :: v.delete || phase != Aborted ==> !v.skipMissing)
  }

  lemma PairKeeps(c: Cluster, phase: Phase, namespace: string, planned: PlannedCopy, found: ClusterReservation,
                  active: Option<ObjectRef>, deleteUnused: bool, pair: Pair)
    requires phase in TERMINAL_PHASES
    requires PairFor(c, phase, QualifiedRef(planned.spec.sourcePVC, namespace), planned, found, active, deleteUnused, pair)
    ensures Keeps(phase, planned, pair)
  {
  }

  /** The source of every volume, and the destination of every completed one. */
  function InUseName(phase: Phase, planned: PlannedCopy, pair: Pair): string {
    if phase != Completed then planned.spec.sourcePV.name
    else if pair.destination.Some? then pair.destination.value.pv.name
    else ""
  }

  /** No volume is the source of one claim and the destination of another. */
  predicate SeparatePVs(plan: seq<PlannedCopy>, pairs: seq<Pair>)
    requires |plan| == |pairs|
  {
    && (forall j, k | 0 <= j < |plan| && 0 <= k < |plan| && pairs[k].destination.Some? ::
          plan[j].spec.sourcePV.name != pairs[k].destination.value.pv.name)
    && (forall k | 0 <= k < |plan| :: plan[k].spec.sourcePV.name != "")
  }

  /** The same copies, up to the policy to leave behind. */
  predicate Alike(copies: seq<ReclaimVolume>, protected: seq<ReclaimVolume>) {
    && |copies| == |protected|
    && forall i | 0 <= i < |copies| :: protected[i] == copies[i].(policy := protected[i].policy)
  }

  lemma AlikeIsDistinct(copies: seq<ReclaimVolume>, protected: seq<ReclaimVolume>)
    requires Alike(copies, protected)
    ensures DistinctNames(copies) ==> DistinctNames(protected)
    ensures DistinctClaims(copies) ==> DistinctClaims(protected)
  {
  }

  lemma KeptOnly(before: map<string, PV>, copies: seq<ReclaimVolume>, after: map<string, PV>)
    requires Kept(before, copies, after)
    ensures forall name <- after :: name in before
  {
  }

  lemma AlikeIsDeletable(phase: Phase, plan: seq<PlannedCopy>, pairs: seq<Pair>, protected: seq<ReclaimVolume>)
    requires |plan| == |pairs| && Alike(Flat(pairs), protected)
    requires forall k | 0 <= k < |plan| :: Keeps(phase, plan[k], pairs[k])
    ensures forall v <- protected :: v.delete || phase != Aborted ==> !v.skipMissing
  {
    hide Keeps;
    forall i | 0 <= i < |protected| ensures protected[i].delete || phase != Aborted ==> !protected[i].skipMissing {
      var v := Flat(pairs)[i];
      var k := FlatMember(pairs, v);
      KeptCopy(phase, plan[k], pairs[k], v);
    }
  }

  lemma KeptCopy(phase: Phase, planned: PlannedCopy, pair: Pair, v: ReclaimVolume)
    requires Keeps(phase, planned, pair) && v in Copies(pair)
    ensures v.delete || phase != Aborted ==> !v.skipMissing
    ensures v.delete ==> Unused(phase, pair) == Some(v)
    ensures pair.source == Some(v) ==> v.pv.name == planned.spec.sourcePV.name
  {
  }

  lemma DeletedIsNotInUse(phase: Phase, plan: seq<PlannedCopy>, pairs: seq<Pair>, v: ReclaimVolume, k: nat)
    requires |plan| == |pairs| && k < |plan| && SeparatePVs(plan, pairs) && v in Flat(pairs) && v.delete
    requires forall j | 0 <= j < |plan| :: Keeps(phase, plan[j], pairs[j])
    ensures v.pv.name != InUseName(phase, plan[k], pairs[k])
  {
    hide Keeps;
    var j := FlatMember(pairs, v);
    KeptCopy(phase, plan[j], pairs[j], v);
  }

  lemma CleanupKeeps(phase: Phase, plan: seq<PlannedCopy>, pairs: seq<Pair>, protected: seq<ReclaimVolume>,
                     before: map<string, PV>, after: map<string, PV>)
    requires |plan| == |pairs| && SeparatePVs(plan, pairs) && Alike(Flat(pairs), protected)
    requires forall k | 0 <= k < |plan| :: Keeps(phase, plan[k], pairs[k])
    requires Kept(before, protected, after)
    ensures forall k | 0 <= k < |plan| && InUseName(phase, plan[k], pairs[k]) in before ::
              InUseName(phase, plan[k], pairs[k]) in after
  {
    hide Keeps, SeparatePVs;
    forall k | 0 <= k < |plan| && InUseName(phase, plan[k], pairs[k]) in before
      ensures InUseName(phase, plan[k], pairs[k]) in after
    {
      var name := InUseName(phase, plan[k], pairs[k]);
      forall w | w in protected ensures w.delete ==> w.pv.name != name {
        var i :| 0 <= i < |protected| && protected[i] == w;
        if w.delete {
          DeletedIsNotInUse(phase, plan, pairs, Flat(pairs)[i], k);
        }
      }
    }
  }

  /**
   A deleted copy's volume is gone, deleted under the policy resolved for it. A kept one
   is released, on its policy if a lasting claim holds it.
   */
  predicate VolumeEnded(before: Cluster, v: ReclaimVolume, finalize: bool, after: map<string, PV>, gone: map<string, Policy>) {
    v.pv.name != "" ==>
      && (v.delete ==> v.pv.name !in after)
      && (v.delete && v.pv.name in before.volumes ==> v.pv.name in gone && gone[v.pv.name] == v.policy)
      && (!v.delete && finalize && v.pv.name in before.volumes && v.policy != NoPolicy ==>
            && v.pv.name in after
            && Ended(after[v.pv.name], if LastingClaim(before.claims, v) then v.policy else Retain))
  }

  lemma VolumeEnds(c: Cluster, v: ReclaimVolume, finalize: bool, mid: map<string, PV>, after: map<string, PV>,
                   gone: map<string, Policy>)
    requires mid.Keys == c.volumes.Keys && CopyEnded(mid, Protected(c, v), finalize, after)
    requires v.delete && v.pv.name != "" && v.pv.name in mid ==> v.pv.name in gone && gone[v.pv.name] == v.policy
    ensures VolumeEnded(c, v, finalize, after, gone)
  {
    assert forall name: string :: name in mid <==> name in c.volumes;
  }

  /** Giving a claim back removes the annotation that releasing it has removed already. */
  lemma ClaimEnds(c: Cluster, v: ReclaimVolume, finalize: bool, mid: Cluster, after: map<ClaimKey, Claim>)
    requires mid.volumes.Keys == c.volumes.Keys && OnlyUnmarked(c.claims, mid.claims)
    requires ClaimEnded(mid, Protected(c, v), finalize, after)
    ensures ClaimEnded(c, v, finalize, after)
  {
    assert forall name: string :: name in mid.volumes <==> name in c.volumes;
    assert forall key: ClaimKey :: key in mid.claims <==> key in c.claims;
    if Key(v.pvc) in c.claims {
      var a, b := c.claims[Key(v.pvc)], mid.claims[Key(v.pvc)];
      assert a.annotations - {SESSION} - {SESSION, ROLLBACK_PV, SOURCE_PV, SOURCE_PVC_UID}
          == a.annotations - {SESSION, ROLLBACK_PV, SOURCE_PV, SOURCE_PVC_UID};
      assert FinalizedClaim(a, v.metadata) == FinalizedClaim(b, v.metadata);
    }
  }

  lemma CleanupEnds(c: Cluster, copies: seq<ReclaimVolume>, protected: seq<ReclaimVolume>, finalize: bool,
                    mid: Cluster, after: Cluster, gone: map<string, Policy>)
    requires |copies| == |protected| && mid.volumes.Keys == c.volumes.Keys && OnlyUnmarked(c.claims, mid.claims)
    requires forall i | 0 <= i < |copies| :: protected[i] == Protected(c, copies[i])
    requires DistinctNames(protected) ==> AllEnded(mid.volumes, protected, finalize, after.volumes)
    requires DistinctNames(protected) ==> GoneUnder(mid.volumes, protected, gone)
    requires DistinctNames(protected) && DistinctClaims(protected) ==> ClaimsEnded(mid, protected, finalize, after.claims)
    ensures DistinctNames(copies) ==> forall v <- copies :: VolumeEnded(c, v, finalize, after.volumes, gone)
    ensures DistinctNames(copies) && DistinctClaims(copies) ==>
              forall v <- copies :: ClaimEnded(c, v, finalize, after.claims)
  {
    hide DistinctNames, DistinctClaims, CopyEnded, VolumeEnded, ClaimEnded, OnlyUnmarked;
    if DistinctNames(copies) {
      AlikeIsDistinct(copies, protected);
      forall v | v in copies ensures VolumeEnded(c, v, finalize, after.volumes, gone) {
        var i :| 0 <= i < |copies| && copies[i] == v;
        assert protected[i].delete ==> protected[i] == v;
        VolumeEnds(c, v, finalize, mid.volumes, after.volumes, gone);
      }
      if DistinctClaims(copies) {
        forall v | v in copies ensures ClaimEnded(c, v, finalize, after.claims) {
          var i :| 0 <= i < |copies| && copies[i] == v;
          assert ClaimEnded(mid, protected[i], finalize, after.claims);
          ClaimEnds(c, v, finalize, mid, after.claims);
        }
      }
    }
  }
}
