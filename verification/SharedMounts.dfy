/**
 Temporary sharing of LVM-backed source volumes. Every change is recorded before it
 is made, and restoring from the record brings each volume back as it was.
 */
module SharedMounts {
  import opened Checkpoints
  import opened OfflineRecords

  datatype LVMKey = LVMKey(namespace: string, name: string)

  /** An absent `spec.shared` is kept as an unset empty value. */
  datatype LVM = LVM(uid: string, shared: string, sharedSet: bool, owner: Option<string>)

  datatype Mount = Mount(sourcePV: LocalRef, lvm: ObjectRef, previous: string, previousSet: bool)

  function KeyOf(m: Mount): LVMKey {
    LVMKey(m.lvm.namespace, m.lvm.name)
  }

  predicate IsYes(s: string) {
    |s| == 3 && s[0] in {'y', 'Y'} && s[1] in {'e', 'E'} && s[2] in {'s', 'S'}
  }

  predicate IsNo(s: string) {
    |s| == 2 && s[0] in {'n', 'N'} && s[1] in {'o', 'O'}
  }

  predicate MatchesPrevious(l: LVM, m: Mount) {
    l.sharedSet == m.previousSet && (m.previousSet ==> l.shared == m.previous)
  }

  // ----------------------------------------------------------- the record

  /** A reference to a source volume of the plan; of two that share a name the later one counts. */
  predicate PlannedPV(plan: seq<VolumeSpec>, pv: LocalRef) {
    exists i | 0 <= i < |plan| ::
      plan[i].sourcePV == pv && forall j | i < j < |plan| :: plan[j].sourcePV.name != pv.name
  }

  /** A mount of a planned source volume with a complete identity. */
  predicate MountValid(plan: seq<VolumeSpec>, m: Mount) {
    PlannedPV(plan, m.sourcePV) && m.lvm.namespace != "" && m.lvm.name != "" && m.lvm.uid != ""
  }

  predicate Apart(a: Mount, b: Mount) {
    a.sourcePV.name != b.sourcePV.name && KeyOf(a) != KeyOf(b)
  }

  predicate MountsValid(plan: seq<VolumeSpec>, mounts: seq<Mount>) {
    && (forall m <- mounts :: MountValid(plan, m))
    && (forall i, j | 0 <= i < j < |mounts| :: Apart(mounts[i], mounts[j]))
  }

  lemma PlannedPVExtends(plan: seq<VolumeSpec>, v: VolumeSpec, pv: LocalRef)
    ensures PlannedPV(plan + [v], pv) <==> v.sourcePV == pv || (PlannedPV(plan, pv) && v.sourcePV.name != pv.name)
  {
    var more := plan + [v];
    assert more[|plan|] == v;
    if PlannedPV(plan, pv) && v.sourcePV.name != pv.name {
      var i :| 0 <= i < |plan| && plan[i].sourcePV == pv
               && forall j | i < j < |plan| :: plan[j].sourcePV.name != pv.name;
      assert more[i].sourcePV == pv;
    }
    if PlannedPV(more, pv) && v.sourcePV != pv {
      var i :| 0 <= i < |more| && more[i].sourcePV == pv
               && forall j | i < j < |more| :: more[j].sourcePV.name != pv.name;
      assert plan[i].sourcePV == pv && forall j | i < j < |plan| :: more[j] == plan[j];
    }
  }

  method SourceUIDs(plan: seq<VolumeSpec>) returns (sources: map<string, string>)
    ensures forall pv: LocalRef :: (pv.name in sources && sources[pv.name] == pv.uid) <==> PlannedPV(plan, pv)
  {
    sources := map[];
    for i := 0 to |plan|
      invariant forall pv: LocalRef ::
                  (pv.name in sources && sources[pv.name] == pv.uid) <==> PlannedPV(plan[..i], pv)
    {
      forall pv: LocalRef {
        PlannedPVExtends(plan[..i], plan[i], pv);
      }
      assert plan[..i + 1] == plan[..i] + [plan[i]];
      sources := sources[plan[i].sourcePV.name := plan[i].sourcePV.uid];
    }
    assert plan[..|plan|] == plan;
  }

  method ValidateMounts(plan: seq<VolumeSpec>, mounts: seq<Mount>) returns (ok: bool)
    ensures ok <==> MountsValid(plan, mounts)
  {
    hide PlannedPV;
    var sources := SourceUIDs(plan);
    var seen: set<string> := {};
    var resources: set<LVMKey> := {};
    for i := 0 to |mounts|
      invariant seen == set j | 0 <= j < i :: mounts[j].sourcePV.name
      invariant resources == set j | 0 <= j < i :: KeyOf(mounts[j])
      invariant forall j | 0 <= j < i :: MountValid(plan, mounts[j])
      invariant forall j, k | 0 <= j < k < i :: Apart(mounts[j], mounts[k])
    {
      var m := mounts[i];
      var planned := m.sourcePV.name in sources && sources[m.sourcePV.name] == m.sourcePV.uid;
      if !planned || m.lvm.namespace == "" || m.lvm.name == "" || m.lvm.uid == "" {
        assert m in mounts && !MountValid(plan, m);
        return false;
      }
      if m.sourcePV.name in seen || KeyOf(m) in resources {
        var j :| 0 <= j < i && (mounts[j].sourcePV.name == m.sourcePV.name || KeyOf(mounts[j]) == KeyOf(m));
        assert !Apart(mounts[j], mounts[i]);
        return false;
      }
      seen := seen + {m.sourcePV.name};
      resources := resources + {KeyOf(m)};
    }
    return true;
  }

  /** Two valid records together are valid exactly when no volume is in both. */
  lemma ValidTogether(plan: seq<VolumeSpec>, a: seq<Mount>, b: seq<Mount>)
    requires MountsValid(plan, a) && MountsValid(plan, b)
    ensures MountsValid(plan, a + b) <==> AllApart(a, b)
  {
    var both := a + b;
    if MountsValid(plan, both) {
      forall i, j | 0 <= i < |a| && 0 <= j < |b| ensures Apart(a[i], b[j]) {
        assert Apart(both[i], both[|a| + j]);
      }
    }
    if AllApart(a, b) {
      forall i, j | 0 <= i < j < |both| ensures Apart(both[i], both[j]) {
        if j >= |a| && i < |a| {
          assert Apart(a[i], b[j - |a|]);
        } else if i >= |a| {
          assert Apart(b[i - |a|], b[j - |a|]);
        }
      }
    }
  }

  predicate Listed(record: seq<Mount>, key: LVMKey) {
    exists m <- record :: KeyOf(m) == key
  }

  lemma ListedAppend(record: seq<Mount>, m: Mount, key: LVMKey)
    ensures Listed(record + [m], key) <==> Listed(record, key) || KeyOf(m) == key
    ensures Listed([m] + record, key) <==> Listed(record, key) || KeyOf(m) == key
  {
    assert m in record + [m] && m in [m] + record;
    assert forall x <- record :: x in record + [m] && x in [m] + record;
  }

  // ---------------------------------------------------------- preparation

  /** What the environment does to one recorded and enabled volume. */
  datatype Outcome = Completed | NotSaved | SaveUnacknowledged | NotEnabled

  /** How one recorded volume answers when it is to be restored; a fenced driver stops. */
  datatype Answer = Reached | Unreachable | Fenced

  /** Held by nobody and set to a known value. */
  predicate Preparable(l: LVM) {
    l.uid != "" && l.owner == None && (IsYes(l.shared) || l.shared == "" || IsNo(l.shared))
  }

  predicate NeedsChange(l: LVM) {
    Preparable(l) && !IsYes(l.shared)
  }

  /** A planned source volume on LVM that some pod uses. */
  predicate InUse(handles: map<string, LVMKey>, used: set<string>, v: VolumeSpec) {
    v.sourcePVC.name in used && v.sourcePV.name in handles
  }

  predicate Reachable(handles: map<string, LVMKey>, lvms: map<LVMKey, LVM>, v: VolumeSpec) {
    v.sourcePV.name in handles && handles[v.sourcePV.name] in lvms && Preparable(lvms[handles[v.sourcePV.name]])
  }

  /** The volumes a preparation has to enable. */
  predicate ToEnable(handles: map<string, LVMKey>, lvms: map<LVMKey, LVM>, used: set<string>, v: VolumeSpec) {
    InUse(handles, used, v) && Reachable(handles, lvms, v) && NeedsChange(lvms[handles[v.sourcePV.name]])
  }

  function MountOf(handles: map<string, LVMKey>, lvms: map<LVMKey, LVM>, v: VolumeSpec): Mount
    requires Reachable(handles, lvms, v)
  {
    var key := handles[v.sourcePV.name];
    Mount(v.sourcePV, ObjectRef(key.namespace, key.name, lvms[key].uid), lvms[key].shared, lvms[key].sharedSet)
  }

  function ToRecord(handles: map<string, LVMKey>, lvms: map<LVMKey, LVM>, used: set<string>, plan: seq<VolumeSpec>):
    seq<Mount>
  {
    if plan == [] then []
    else
      var last := plan[|plan| - 1];
      ToRecord(handles, lvms, used, plan[..|plan| - 1])
      + if ToEnable(handles, lvms, used, last) then [MountOf(handles, lvms, last)] else []
  }

  /** Every volume in use can be prepared, and what there is to record is a valid record. */
  predicate CanPrepare(handles: map<string, LVMKey>, lvms: map<LVMKey, LVM>, used: set<string>, plan: seq<VolumeSpec>) {
    && (forall v <- plan :: InUse(handles, used, v) ==> Reachable(handles, lvms, v))
    && MountsValid(plan, ToRecord(handles, lvms, used, plan))
  }

  lemma {:induction false} RecordedWereNeeded(handles: map<string, LVMKey>, lvms: map<LVMKey, LVM>,
                                              used: set<string>, plan: seq<VolumeSpec>, m: Mount)
    ensures m in ToRecord(handles, lvms, used, plan) <==>
            exists v <- plan :: ToEnable(handles, lvms, used, v) && MountOf(handles, lvms, v) == m
  {
    if plan != [] {
      RecordedWereNeeded(handles, lvms, used, plan[..|plan| - 1], m);
      assert plan == plan[..|plan| - 1] + [plan[|plan| - 1]];
    }
  }

  /** The record already names this volume, by its claim's volume or by the LVM volume behind it. */
  predicate IsRecorded(handles: map<string, LVMKey>, record: seq<Mount>, v: VolumeSpec) {
    exists m <- record ::
      m.sourcePV.name == v.sourcePV.name || (v.sourcePV.name in handles && KeyOf(m) == handles[v.sourcePV.name])
  }

  /** No volume to enable is in the record yet: what a caller can look at before it prepares. */
  predicate NoneRecorded(handles: map<string, LVMKey>, lvms: map<LVMKey, LVM>, used: set<string>,
                         plan: seq<VolumeSpec>, record: seq<Mount>)
  {
    forall v <- plan :: ToEnable(handles, lvms, used, v) ==> !IsRecorded(handles, record, v)
  }

  predicate AllApart(record: seq<Mount>, prepared: seq<Mount>) {
    forall i, j | 0 <= i < |record| && 0 <= j < |prepared| :: Apart(record[i], prepared[j])
  }

  lemma NoneRecordedIsApart(handles: map<string, LVMKey>, lvms: map<LVMKey, LVM>, used: set<string>,
                            plan: seq<VolumeSpec>, record: seq<Mount>)
    ensures NoneRecorded(handles, lvms, used, plan, record) <==>
            AllApart(record, ToRecord(handles, lvms, used, plan))
  {
    hide NeedsChange, Preparable, ToRecord;
    var prepared := ToRecord(handles, lvms, used, plan);
    if NoneRecorded(handles, lvms, used, plan, record) {
      forall i, j | 0 <= i < |record| && 0 <= j < |prepared| ensures Apart(record[i], prepared[j]) {
        RecordedWereNeeded(handles, lvms, used, plan, prepared[j]);
        var v :| v in plan && ToEnable(handles, lvms, used, v) && MountOf(handles, lvms, v) == prepared[j];
        assert record[i] in record && !IsRecorded(handles, record, v);
      }
      assert AllApart(record, prepared);
    }
    if AllApart(record, prepared) {
      forall v | v in plan && ToEnable(handles, lvms, used, v) ensures !IsRecorded(handles, record, v) {
        RecordedWereNeeded(handles, lvms, used, plan, MountOf(handles, lvms, v));
        var j :| 0 <= j < |prepared| && prepared[j] == MountOf(handles, lvms, v);
        forall m | m in record
          ensures m.sourcePV.name != v.sourcePV.name && KeyOf(m) != handles[v.sourcePV.name]
        {
          var i :| 0 <= i < |record| && record[i] == m;
          assert Apart(record[i], prepared[j]);
        }
      }
    }
  }

  /**
   A preparation that records everything leaves a valid record exactly when the record
   was valid and no volume to enable was in it.
   */
  lemma PreparedRecordIsValid(handles: map<string, LVMKey>, lvms: map<LVMKey, LVM>, used: set<string>,
                              plan: seq<VolumeSpec>, record: seq<Mount>)
    requires CanPrepare(handles, lvms, used, plan)
    ensures MountsValid(plan, record + ToRecord(handles, lvms, used, plan)) <==>
            MountsValid(plan, record) && NoneRecorded(handles, lvms, used, plan, record)
  {
    hide MountsValid, NoneRecorded, ToRecord;
    var prepared := ToRecord(handles, lvms, used, plan);
    if MountsValid(plan, record + prepared) {
      PrefixValid(plan, record + prepared, |record|);
      assert (record + prepared)[..|record|] == record;
    }
    if MountsValid(plan, record) {
      ValidTogether(plan, record, prepared);
      NoneRecordedIsApart(handles, lvms, used, plan, record);
    }
  }

  /** How many of the first `n` volumes complete before one does not. */
  function Completes(outcomes: nat -> Outcome, n: nat): (k: nat)
    ensures k <= n && (forall i | 0 <= i < k :: outcomes(i) == Completed) && (k < n ==> outcomes(k) != Completed)
  {
    if n == 0 then 0
    else
      var k := Completes(outcomes, n - 1);
      if k == n - 1 && outcomes(n - 1) == Completed then n else k
  }

  /** A volume whose save committed is in the record, whether or not it was enabled. */
  function Saves(outcomes: nat -> Outcome, n: nat): (k: nat)
    ensures k <= n
  {
    var k := Completes(outcomes, n);
    if k < n && outcomes(k) != NotSaved then k + 1 else k
  }

  // ----------------------------------------------------------- the manager

  class SharedMountManager {
    const plan: seq<VolumeSpec>
    const owner: string
    const handles: map<string, LVMKey>
    ghost const original: map<LVMKey, LVM>
    var durable: seq<Mount>
    var mounts: seq<Mount>
    var lvms: map<LVMKey, LVM>

    ghost function Enabled(l: LVM): LVM {
      l.(shared := "yes", sharedSet := true, owner := Some(owner))
    }

    /** The record tells what the volume was. */
    ghost predicate Records(m: Mount, l: LVM) {
      m.previousSet == l.sharedSet && m.previous == l.shared && m.lvm.uid == l.uid
    }

    ghost predicate Truthful(record: seq<Mount>) {
      forall m <- record ::
        && m.sourcePV.name in handles && KeyOf(m) == handles[m.sourcePV.name]
        && (KeyOf(m) in original ==> Records(m, original[KeyOf(m)]))
    }

    /** Every volume is as it was, or enabled by this workflow and durably recorded. */
    ghost predicate Inv()
      reads `durable, `mounts, `lvms
    {
      && lvms.Keys == original.Keys
      && (forall key <- original ::
            && original[key].owner != Some(owner)
            && (!original[key].sharedSet ==> original[key].shared == "")
            && (lvms[key] == original[key] || (lvms[key] == Enabled(original[key]) && original[key].owner == None && Listed(durable, key))))
      && Truthful(durable) && Truthful(mounts)
    }

    constructor (plan: seq<VolumeSpec>, owner: string, handles: map<string, LVMKey>, lvms: map<LVMKey, LVM>)
      requires forall key <- lvms ::
                 lvms[key].owner != Some(owner) && (!lvms[key].sharedSet ==> lvms[key].shared == "")
      ensures this.plan == plan && this.owner == owner && this.handles == handles
      ensures Inv() && mounts == durable == [] && this.lvms == lvms == original
    {
      this.plan, this.owner, this.handles := plan, owner, handles;
      this.original, this.lvms := lvms, lvms;
      this.durable, this.mounts := [], [];
    }

    lemma SameVolumes()
      requires Inv()
      ensures lvms.Keys == original.Keys
    {
    }

    /** The next invocation starts from the durable record. */
    method Load()
      requires Inv()
      modifies `mounts
      ensures Inv() && mounts == durable
    {
      mounts := durable;
    }

    method Persist(outcome: Outcome) returns (ok: bool)
      requires Inv() && forall key <- original :: lvms[key] != original[key] ==> Listed(mounts, key)
      modifies `durable
      ensures Inv() && durable == (if outcome == NotSaved then old(durable) else mounts)
      ensures ok <==> outcome != NotSaved && outcome != SaveUnacknowledged
    {
      if outcome != NotSaved {
        durable := mounts;
      }
      ok := outcome != NotSaved && outcome != SaveUnacknowledged;
    }

    /** Refused when the volume is gone, held by anyone, or set to an unknown value. */
    method PrepareShared(v: VolumeSpec) returns (ok: bool, needsChange: bool, mount: Mount)
      requires Inv() && v.sourcePV.name in handles
      ensures ok <==> Reachable(handles, lvms, v)
      ensures ok ==> mount == MountOf(handles, lvms, v) && (needsChange <==> NeedsChange(lvms[KeyOf(mount)]))
      ensures ok && needsChange ==> Collected(mount, lvms)
    {
      mount := Mount(v.sourcePV, ObjectRef("", "", ""), "", false);
      needsChange := false;
      ok := false;
      if handles[v.sourcePV.name] !in lvms {
        return;
      }
      var key := handles[v.sourcePV.name];
      var l := lvms[key];
      if l.uid == "" || l.owner != None {
        return;
      }
      mount := Mount(v.sourcePV, ObjectRef(key.namespace, key.name, l.uid), l.shared, l.sharedSet);
      ok := IsYes(l.shared) || l.shared == "" || IsNo(l.shared);
      needsChange := ok && !IsYes(l.shared);
    }

    method EnableShared(m: Mount, outcome: Outcome) returns (ok: bool)
      requires Inv() && m in durable && KeyOf(m) in original
      modifies `lvms
      ensures Inv()
      ensures ok ==> lvms == old(lvms)[KeyOf(m) := Enabled(original[KeyOf(m)])]
      ensures !ok ==> lvms == old(lvms)
      ensures ok <==> outcome == Completed && old(lvms)[KeyOf(m)] == original[KeyOf(m)] && original[KeyOf(m)].owner == None
    {
      var l := lvms[KeyOf(m)];
      if outcome != Completed || l.uid != m.lvm.uid || !MatchesPrevious(l, m) || l.owner != None {
        return false;
      }
      lvms := lvms[KeyOf(m) := l.(shared := "yes", sharedSet := true, owner := Some(owner))];
      ok := true;
    }

    /** Looks at every planned volume in use and collects those to enable. */
    method Collect(readable: bool, used: set<string>) returns (ok: bool, prepared: seq<Mount>)
      requires Inv()
      ensures ok <==> readable && CanPrepare(handles, lvms, used, plan)
      ensures ok ==> prepared == ToRecord(handles, lvms, used, plan)
      ensures ok ==> forall m <- prepared :: Collected(m, lvms)
    {
      hide Inv, MountsValid, NeedsChange, Reachable;
      prepared := [];
      if !readable {
        return false, prepared;
      }
      for i := 0 to |plan|
        invariant prepared == ToRecord(handles, lvms, used, plan[..i])
        invariant forall v <- plan[..i] :: InUse(handles, used, v) ==> Reachable(handles, lvms, v)
        invariant forall m <- prepared :: Collected(m, lvms)
      {
        assert plan[..i + 1] == plan[..i] + [plan[i]] && plan[..i + 1][..i] == plan[..i];
        if InUse(handles, used, plan[i]) {
          var needsChange, mount;
          ok, needsChange, mount := PrepareShared(plan[i]);
          if !ok {
            assert plan[i] in plan;
            return;
          }
          if needsChange {
            prepared := prepared + [mount];
          }
        }
      }
      assert plan[..|plan|] == plan;
      ok := ValidateMounts(plan, prepared);
    }

    /** Describes a volume that nobody holds and that is as it was. */
    ghost predicate Collected(m: Mount, current: map<LVMKey, LVM>) {
      && m.sourcePV.name in handles && KeyOf(m) == handles[m.sourcePV.name]
      && KeyOf(m) in original && KeyOf(m) in current && current[KeyOf(m)] == original[KeyOf(m)]
      && Records(m, original[KeyOf(m)]) && original[KeyOf(m)].owner == None
    }

    /** From `before` to `now` exactly the volumes of `done` were enabled. */
    ghost predicate EnabledUpTo(before: map<LVMKey, LVM>, done: seq<Mount>, now: map<LVMKey, LVM>) {
      && now.Keys == before.Keys == original.Keys
      && forall key <- original :: now[key] == if Listed(done, key) then Enabled(original[key]) else before[key]
    }

    lemma NoneEnabled(before: map<LVMKey, LVM>)
      requires before.Keys == original.Keys
      ensures EnabledUpTo(before, [], before)
    {
    }

    lemma EnabledOneMore(before: map<LVMKey, LVM>, done: seq<Mount>, now: map<LVMKey, LVM>, m: Mount)
      requires EnabledUpTo(before, done, now) && KeyOf(m) in original
      ensures EnabledUpTo(before, done + [m], now[KeyOf(m) := Enabled(original[KeyOf(m)])])
    {
      hide Enabled;
      forall key | key in original {
        ListedAppend(done, m, key);
      }
    }

    lemma StillCollected(m: Mount, other: Mount, before: map<LVMKey, LVM>, l: LVM)
      requires Apart(m, other) && Collected(other, before)
      ensures Collected(other, before[KeyOf(m) := l])
    {
    }

    /** One volume: the record first, the change after it. */
    method RecordAndEnable(m: Mount, outcome: Outcome) returns (ok: bool)
      requires Inv() && mounts == durable && Collected(m, lvms)
      modifies `durable, `mounts, `lvms
      ensures Inv() && (ok <==> outcome == Completed)
      ensures durable == if outcome == NotSaved then old(durable) else old(durable) + [m]
      ensures ok ==> mounts == durable
      ensures lvms == if ok then old(lvms)[KeyOf(m) := Enabled(original[KeyOf(m)])] else old(lvms)
    {
      var previous := mounts;
      mounts := previous + [m];
      forall key | key in original && lvms[key] != original[key] ensures Listed(mounts, key) {
        ListedAppend(previous, m, key);
      }
      ok := Persist(outcome);
      if !ok {
        mounts := previous;
        return;
      }
      assert m in durable;
      ok := EnableShared(m, outcome);
    }

    /** Every recorded volume is enabled by this workflow. */
    ghost predicate AllEnabled()
      reads `durable, `lvms
    {
      forall m <- durable :: KeyOf(m) in lvms && lvms[KeyOf(m)].owner == Some(owner)
    }

    /** A volume this workflow holds is refused, so nothing recorded is to be enabled again. */
    lemma EnabledAreNotPrepared(used: set<string>)
      requires Inv() && AllEnabled()
      ensures NoneRecorded(handles, lvms, used, plan, durable)
    {
      forall v | v in plan && ToEnable(handles, lvms, used, v) ensures !IsRecorded(handles, durable, v) {
        forall m | m in durable
          ensures m.sourcePV.name != v.sourcePV.name && KeyOf(m) != handles[v.sourcePV.name]
        {
          assert lvms[KeyOf(m)].owner == Some(owner);
        }
      }
    }

    /**
     Records each volume, then enables it. The durable record is the earlier one followed
     by every volume whose save committed, and exactly the completed ones are enabled.
     A valid record stays valid wherever this stops if no volume to enable was in it,
     as when all recorded volumes are enabled; if this ends, it is valid only then.
     */
    method Prepare(readable: bool, used: set<string>, outcomes: nat -> Outcome)
      returns (ok: bool, ghost prepared: seq<Mount>)
      requires Inv() && mounts == durable
      modifies `durable, `mounts, `lvms
      ensures Inv() && (ok ==> mounts == durable)
      ensures prepared ==
              if readable && old(CanPrepare(handles, lvms, used, plan)) then old(ToRecord(handles, lvms, used, plan)) else []
      ensures durable == old(durable) + prepared[..Saves(outcomes, |prepared|)]
      ensures EnabledUpTo(old(lvms), prepared[..Completes(outcomes, |prepared|)], lvms)
      ensures ok <==>
              readable && old(CanPrepare(handles, lvms, used, plan)) && Completes(outcomes, |prepared|) == |prepared|
      ensures old(MountsValid(plan, durable) && NoneRecorded(handles, lvms, used, plan, durable)) ==>
                MountsValid(plan, durable)
      ensures old(MountsValid(plan, durable) && AllEnabled()) ==> MountsValid(plan, durable)
      ensures ok ==>
                (MountsValid(plan, durable) <==>
                 old(MountsValid(plan, durable) && NoneRecorded(handles, lvms, used, plan, durable)))
    {
      hide Inv, MountsValid, CanPrepare, NoneRecorded, AllEnabled;
      assert old(AllEnabled()) ==> old(NoneRecorded(handles, lvms, used, plan, durable)) by {
        if AllEnabled() {
          EnabledAreNotPrepared(used);
        }
      }
      var collected;
      ok, collected := Collect(readable, used);
      prepared := if ok then collected else [];
      if !ok {
        SameVolumes();
        assert prepared[..Saves(outcomes, 0)] == [] && durable == durable + [];
        return;
      }
      PreparedRecordIsValid(handles, lvms, used, plan, durable);
      PreparedAreApart(handles, lvms, used, plan);
      ok := RecordAndEnableAll(collected, outcomes);
      RecordedPart(plan, old(durable), prepared, Saves(outcomes, |prepared|));
    }

    method RecordAndEnableAll(prepared: seq<Mount>, outcomes: nat -> Outcome) returns (ok: bool)
      requires Inv() && mounts == durable && forall m <- prepared :: Collected(m, lvms)
      requires forall i, j | 0 <= i < j < |prepared| :: Apart(prepared[i], prepared[j])
      modifies `durable, `mounts, `lvms
      ensures Inv() && (ok ==> mounts == durable)
      ensures durable == old(durable) + prepared[..Saves(outcomes, |prepared|)]
      ensures EnabledUpTo(old(lvms), prepared[..Completes(outcomes, |prepared|)], lvms)
      ensures ok <==> Completes(outcomes, |prepared|) == |prepared|
    {
      hide Inv, Collected, Apart, Enabled, EnabledUpTo, Listed;
      SameVolumes();
      NoneEnabled(lvms);
      for i := 0 to |prepared|
        invariant Inv() && mounts == durable == old(durable) + prepared[..i]
        invariant forall j | 0 <= j < i :: outcomes(j) == Completed
        invariant forall j | i <= j < |prepared| :: Collected(prepared[j], lvms)
        invariant EnabledUpTo(old(lvms), prepared[..i], lvms)
      {
        var m := prepared[i];
        assert prepared[..i + 1] == prepared[..i] + [m];
        ghost var before := lvms;
        ok := RecordAndEnable(m, outcomes(i));
        if !ok {
          assert Completes(outcomes, |prepared|) == i;
          return;
        }
        EnabledOneMore(old(lvms), prepared[..i], before, m);
        forall j | i < j < |prepared| ensures Collected(prepared[j], lvms) {
          StillCollected(m, prepared[j], before, Enabled(original[KeyOf(m)]));
        }
      }
      assert prepared[..|prepared|] == prepared;
      ok := true;
    }

    /** Gone, or not held by another owner: what this workflow can restore. */
    ghost predicate Free(m: Mount) {
      KeyOf(m) in original ==> original[KeyOf(m)].owner == None
    }

    /** A restored volume is exactly as it was; a volume that cannot be restored is left alone. */
    method RestoreShared(m: Mount, reached: bool) returns (ok: bool)
      requires Inv() && m in durable
      modifies `lvms
      ensures Inv()
      ensures forall key <- original :: key != KeyOf(m) ==> lvms[key] == old(lvms)[key]
      ensures ok <==> reached && Free(m)
      ensures ok && KeyOf(m) in original ==> lvms[KeyOf(m)] == original[KeyOf(m)]
      ensures !ok ==> lvms == old(lvms)
    {
      ok := reached;
      if !ok || KeyOf(m) !in lvms {
        return;
      }
      var l := lvms[KeyOf(m)];
      if l.uid != m.lvm.uid {
        return false;
      }
      if l.owner == None {
        ok := MatchesPrevious(l, m);
        return;
      }
      if l.owner != Some(owner) || (!IsYes(l.shared) && !MatchesPrevious(l, m)) {
        return false;
      }
      lvms := lvms[KeyOf(m) := l.(shared := if m.previousSet then m.previous else "", sharedSet := m.previousSet, owner := None)];
    }

    /** The mounts from `i` on that could not be restored, in the order of the record. */
    ghost function Left(record: seq<Mount>, answers: nat -> Answer, i: nat): seq<Mount>
      requires i <= |record|
      decreases |record| - i
    {
      if i == |record| then []
      else (if answers(i) == Reached && Free(record[i]) then [] else [record[i]]) + Left(record, answers, i + 1)
    }

    lemma {:induction false} LeftIsRecorded(record: seq<Mount>, answers: nat -> Answer, i: nat)
      requires i <= |record|
      ensures forall m <- Left(record, answers, i) :: m in record
      decreases |record| - i
    {
      if i < |record| {
        LeftIsRecorded(record, answers, i + 1);
      }
    }

    lemma {:induction false} NoneLeft(record: seq<Mount>, answers: nat -> Answer, i: nat)
      requires i <= |record|
      ensures Left(record, answers, i) == [] <==>
              forall j | i <= j < |record| :: answers(j) == Reached && Free(record[j])
      decreases |record| - i
    {
      if i < |record| {
        NoneLeft(record, answers, i + 1);
      }
    }

    /** What is still to be restored is recorded, either as failed or as not yet tried. */
    ghost predicate Pending(remaining: seq<Mount>, untried: seq<Mount>)
      reads `lvms
      requires lvms.Keys == original.Keys
    {
      forall key <- original :: lvms[key] != original[key] ==> Listed(remaining, key) || Listed(untried, key)
    }

    method RestoreLast(previous: seq<Mount>, i: nat, remaining: seq<Mount>, reached: bool) returns (still: seq<Mount>)
      requires i < |previous| && Inv() && durable == previous && Pending(remaining, previous[..i + 1])
      modifies `lvms
      ensures Inv() && Pending(still, previous[..i])
      ensures still == (if reached && Free(previous[i]) then [] else [previous[i]]) + remaining
    {
      var m := previous[i];
      assert previous[..i + 1] == previous[..i] + [m];
      var done := RestoreShared(m, reached);
      still := if done then remaining else [m] + remaining;
      forall key | key in original && lvms[key] != original[key]
        ensures Listed(still, key) || Listed(previous[..i], key)
      {
        ListedAppend(previous[..i], m, key);
        ListedAppend(remaining, m, key);
      }
    }

    /**
     Restores in reverse order and keeps exactly what could not be restored. It ends with
     every volume as it was and nothing recorded if and only if each was reached and no
     other owner holds one, and the last save was acknowledged.
     */
    method Restore(answers: nat -> Answer, outcome: Outcome) returns (ok: bool)
      requires Inv() && mounts == durable
      modifies `durable, `mounts, `lvms
      ensures Inv()
      ensures ok ==> mounts == durable == [] && lvms == original
      ensures ok <==>
              && (forall j | 0 <= j < |old(durable)| :: answers(j) == Reached && Free(old(durable)[j]))
              && (old(durable) == [] || outcome == Completed || outcome == NotEnabled)
      ensures durable ==
              if outcome == NotSaved || exists j | 0 <= j < |old(durable)| :: answers(j) == Fenced then old(durable)
              else Left(old(durable), answers, 0)
    {
      hide Inv;
      var previous := mounts;
      var remaining: seq<Mount> := [];
      assert previous[..|previous|] == previous;
      NothingDone(previous);
      for i := |previous| downto 0
        invariant Inv() && mounts == durable == previous && lvms.Keys == original.Keys
        invariant forall j | i <= j < |previous| :: answers(j) != Fenced
        invariant remaining == Left(previous, answers, i)
        invariant Pending(remaining, previous[..i])
      {
        if answers(i) == Fenced {
          return false;
        }
        remaining := RestoreLast(previous, i, remaining, answers(i) == Reached);
        SameVolumes();
      }
      NoneLeft(previous, answers, 0);
      LeftIsRecorded(previous, answers, 0);
      assert previous[..0] == [];
      ok := Record(previous, remaining, outcome);
    }

    lemma NothingDone(previous: seq<Mount>)
      requires Inv() && durable == previous
      ensures lvms.Keys == original.Keys && Pending([], previous)
    {
    }

    /** The record of what is left; the earlier one is put back if it could not be saved. */
    method Record(previous: seq<Mount>, remaining: seq<Mount>, outcome: Outcome) returns (ok: bool)
      requires Inv() && mounts == durable == previous && (forall m <- remaining :: m in previous)
      requires lvms.Keys == original.Keys && Pending(remaining, [])
      requires previous == [] ==> remaining == []
      modifies `durable, `mounts
      ensures Inv() && (ok ==> mounts == durable == [] && lvms == original)
      ensures ok <==> remaining == [] && (previous == [] || outcome == Completed || outcome == NotEnabled)
      ensures durable == if outcome == NotSaved then previous else remaining
    {
      mounts := remaining;
      ok := true;
      if |previous| > 0 {
        ok := Persist(outcome);
        if !ok {
          mounts := previous;
          return;
        }
      }
      ok := remaining == [];
      if ok {
        assert lvms == original;
      }
    }
  }

  lemma PrefixValid(plan: seq<VolumeSpec>, mounts: seq<Mount>, n: nat)
    requires MountsValid(plan, mounts) && n <= |mounts|
    ensures MountsValid(plan, mounts[..n])
  {
    assert forall m <- mounts[..n] :: m in mounts;
  }

  lemma PreparedAreApart(handles: map<string, LVMKey>, lvms: map<LVMKey, LVM>, used: set<string>, plan: seq<VolumeSpec>)
    requires CanPrepare(handles, lvms, used, plan)
    ensures
      var prepared := ToRecord(handles, lvms, used, plan);
      forall i, j | 0 <= i < j < |prepared| :: Apart(prepared[i], prepared[j])
  {
  }

  lemma RecordedPart(plan: seq<VolumeSpec>, record: seq<Mount>, prepared: seq<Mount>, n: nat)
    requires n <= |prepared|
    ensures MountsValid(plan, record + prepared) ==> MountsValid(plan, record + prepared[..n])
    ensures n == |prepared| ==> record + prepared[..n] == record + prepared
  {
    if MountsValid(plan, record + prepared) {
      PrefixValid(plan, record + prepared, |record| + n);
      assert (record + prepared)[..|record| + n] == record + prepared[..n];
    }
  }

  // ------------------------------------------------------ a cutover, twice

  const SOURCE: VolumeSpec :=
    VolumeSpec(LocalRef("data", "claim-1"), LocalRef("pv-old", "pv-1"), LocalRef("data-new", ""), 1, 1)

  const VOLUME: LVMKey := LVMKey("openebs", "lv-old")

  /**
   A cutover stops after it recorded the volume and before it enabled it; the next one
   finds the volume unheld, records it again, enables it, and leaves a record that the
   validator refuses.
   */
  method CutoverTwice() returns (record: seq<Mount>)
    ensures |record| == 2 && !MountsValid([SOURCE], record)
  {
    hide CanPrepare, ToRecord, MountsValid, NoneRecorded;
    var unshared := LVM("lvm-1", "no", true, None);
    var manager := new SharedMountManager(
      [SOURCE], "session", map["pv-old" := VOLUME], map[VOLUME := unshared]);
    var mount := Mount(SOURCE.sourcePV, ObjectRef("openebs", "lv-old", "lvm-1"), "no", true);
    OneMount(manager.handles, manager.lvms, mount);
    PrepareOnly(manager, mount, NotEnabled);
    manager.Load();
    PrepareOnly(manager, mount, Completed);
    record := manager.durable;
    assert record == [mount, mount];
    TwiceIsInvalid(mount);
  }

  lemma TwiceIsInvalid(m: Mount)
    ensures !MountsValid([SOURCE], [m, m])
  {
    assert !Apart([m, m][0], [m, m][1]);
  }

  method PrepareOnly(manager: SharedMountManager, mount: Mount, outcome: Outcome)
    requires manager.Inv() && manager.mounts == manager.durable && manager.plan == [SOURCE]
    requires CanPrepare(manager.handles, manager.lvms, {"data"}, [SOURCE])
    requires ToRecord(manager.handles, manager.lvms, {"data"}, [SOURCE]) == [mount]
    requires outcome == NotEnabled || outcome == Completed
    modifies manager
    ensures manager.Inv() && manager.durable == old(manager.durable) + [mount]
    ensures outcome == NotEnabled ==> manager.lvms == old(manager.lvms)
  {
    hide CanPrepare, ToRecord, MountsValid, NoneRecorded, manager.Inv;
    manager.SameVolumes();
    var outcomes := (i: nat) => outcome;
    ghost var prepared;
    var ok;
    ok, prepared := manager.Prepare(true, {"data"}, outcomes);
    assert Completes(outcomes, 0) == 0;
    assert prepared[..1] == [mount] && prepared[..0] == [];
    manager.SameVolumes();
  }

  lemma OneMount(handles: map<string, LVMKey>, lvms: map<LVMKey, LVM>, m: Mount)
    requires handles == map["pv-old" := VOLUME] && lvms == map[VOLUME := LVM("lvm-1", "no", true, None)]
    requires m == Mount(SOURCE.sourcePV, ObjectRef("openebs", "lv-old", "lvm-1"), "no", true)
    ensures CanPrepare(handles, lvms, {"data"}, [SOURCE]) && ToRecord(handles, lvms, {"data"}, [SOURCE]) == [m]
  {
    assert [SOURCE][..0] == [];
    assert ToEnable(handles, lvms, {"data"}, SOURCE);
    assert ToRecord(handles, lvms, {"data"}, [SOURCE]) == [m];
    assert [SOURCE][0].sourcePV == m.sourcePV;
    assert PlannedPV([SOURCE], m.sourcePV);
  }
}
