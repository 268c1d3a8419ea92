/**
 When a volume is copied after its destination was full. What the next invocation loads
 decides it, in both directions; and two complete runs show that the two exceptions of
 `CapacityIsFinal` are real.
 */
module CapacityRun {
  import opened Lifecycle
  import opened History
  import opened Checkpoints
  import opened PodRecord
  import opened PodMonitor
  import opened PodInvariant

  // --------------------------------------------------------------- the gate

  /** Some acceptable continuation of the log ends in a copy. */
  ghost predicate CopyCanFollow(plan: Plan, r: Record, log: seq<Event>) {
    exists more: seq<Event> :: |more| > 0 && Safe(plan, r, log + more) && more[|more| - 1].CopyCalled?
  }

  /** What an invocation that is no deletion starts from, in a warm pass that is not finished. */
  ghost predicate StartsWarmPass(plan: Plan, r: Record, log: seq<Event>, m: Monitor, v: nat) {
    && PlanOk(plan) && Safe(plan, r, log) && m == Replay(r, log, |log|)
    && |log| > 0 && log[|log| - 1] == Loaded(m.durable, false) && !m.deleting
    && Good(plan, m, m.durable) && PhaseOf(m.durable) in m.seen && m.dirty == map[]
    && PhaseOf(m.durable) == WarmCopying
    && v < |m.durable.volumes| && !m.durable.volumes[v].sync.warmDone
  }

  lemma CapacityClosesTheGate(plan: Plan, r: Record, log: seq<Event>, m: Monitor, v: nat)
    requires StartsWarmPass(plan, r, log, m, v) && CopyCanFollow(plan, r, log)
    ensures m.durable.status.reason != CapacityExhausted
  {
    hide Safe, Replay, Good, PlanOk;
    if m.durable.status.reason == CapacityExhausted {
      var more: seq<Event> :| |more| > 0 && Safe(plan, r, log + more) && more[|more| - 1].CopyCalled?;
      var all := log + more;
      LoadedCapacityIsFinal(plan, r, all, |log| - 1, |all| - 1);
    }
  }

  lemma JustLoaded(r: Record, log: seq<Event>)
    requires |log| > 0 && log[|log| - 1].Loaded?
    ensures !Replay(r, log, |log|).excused
  {
  }

  lemma AppendSave(plan: Plan, r: Record, log: seq<Event>, m: Monitor, to: Record)
    requires PlanOk(plan) && Safe(plan, r, log) && m == Replay(r, log, |log|) && Good(plan, m, to)
    ensures
      var n := After(m, Saved(to));
      && Safe(plan, r, log + [Saved(to)]) && n == Replay(r, log + [Saved(to)], |log| + 1)
      && Good(plan, n, to)
  {
    hide Good, Safe, Replay, After, PlanOk;
    GoodMayBeSaved(plan, m, to);
    GoodOnceSaved(plan, m, to);
    SafeAppend(plan, r, log, Saved(to));
  }

  function Retry(r: Record, v: nat): Record
    requires v < |r.volumes|
  {
    With(r, v, r.volumes[v].(sync := r.volumes[v].sync.(attempts := r.volumes[v].sync.attempts + 1)))
  }

  /** With no reason recorded the pass is taken up again and the volume copied. */
  lemma NoReasonOpensTheGate(plan: Plan, r: Record, log: seq<Event>, m: Monitor, v: nat)
    requires StartsWarmPass(plan, r, log, m, v) && m.durable.status.reason != CapacityExhausted
    ensures CopyCanFollow(plan, r, log)
  {
    hide Good, Safe, Replay, After, PlanOk, Restarted;
    var started := Restarted(m.durable, Warm);
    Unbarred(plan, m, m.durable);
    JustLoaded(r, log);
    RestartGood(plan, m, m.durable, Warm);
    TakenUp(m.durable);
    AppendSave(plan, r, log, m, started);
    var n := After(m, Saved(started));
    AfterSave(m, started);
    AttemptFits(plan, n, started, v);
    var retry := Retry(started, v);
    AppendSave(plan, r, log + [Saved(started)], n, retry);
    var o := After(n, Saved(retry));
    AfterSave(n, retry);
    var copy := CopyCalled(v, Warm, retry.volumes[v].sync.attempts);
    SafeAppend(plan, r, log + [Saved(started)] + [Saved(retry)], copy);
    var more := [Saved(started), Saved(retry), copy];
    assert log + [Saved(started)] + [Saved(retry)] + [copy] == log + more;
    assert more[|more| - 1].CopyCalled?;
  }

  lemma TakenUp(r: Record)
    requires PhaseOf(r) == WarmCopying && r.status.reason != CapacityExhausted
    ensures Restarted(r, Warm).volumes == r.volumes
    ensures PhaseOf(Restarted(r, Warm)) == WarmCopying && Restarted(r, Warm).status.reason != CapacityExhausted
  {
  }

  lemma AfterSave(m: Monitor, r: Record)
    requires !Barred(m) && !m.excused && r.status.reason != CapacityExhausted
    ensures
      var n := After(m, Saved(r));
      && !Barred(n) && !n.excused && !n.exhausted && !n.capped && n.durable == r
      && n.dirty == m.dirty && n.copied == m.copied && n.deleting == m.deleting
  {
  }

  /**
   The gate looks at the recorded reason and at nothing else: an invocation can copy the
   volume again exactly when the record it starts from does not carry the reason.
   */
  lemma GateIsExact(plan: Plan, r: Record, log: seq<Event>, m: Monitor, v: nat)
    requires StartsWarmPass(plan, r, log, m, v)
    ensures CopyCanFollow(plan, r, log) <==> m.durable.status.reason != CapacityExhausted
  {
    hide StartsWarmPass, CopyCanFollow;
    if m.durable.status.reason != CapacityExhausted {
      NoReasonOpensTheGate(plan, r, log, m, v);
    } else if CopyCanFollow(plan, r, log) {
      CapacityClosesTheGate(plan, r, log, m, v);
    }
  }

  // --------------------------------------------------------------- two runs

  const SPEC: VolumeSpec :=
    VolumeSpec(LocalRef("data", "claim-1"), LocalRef("pv-old", "pv-1"), LocalRef("data-new", ""), 1, 1)

  const PLAN: Plan := Plan([SPEC], 1)

  const RESERVATION: Reservation :=
    Reservation("data", Some(LocalRef("data-new", "claim-2")), Some(LocalRef("pv-new", "pv-2")), "Delete", true)

  const PLANNED: Status := Status(Planned, Unset, NoReason, [Planned])
  const RESERVING: Status := Recorded(PLANNED, Reserving)
  const RESERVED: Status := Recorded(RESERVING, Reserved)
  const COPYING: Status := Recorded(RESERVED, WarmCopying)
  const EXHAUSTED: Status := Recorded(COPYING.(reason := CapacityExhausted), Failed)
  const CANCELLED: Status := EXHAUSTED.(reason := NoReason)
  const RETRYING: Status := Recorded(CANCELLED, WarmCopying)

  const INITIAL: Record := Record(PLANNED, 0, [])

  function Tried(s: Status, attempts: nat): Record {
    Record(s, 0, [Volume(RESERVATION, Sync(false, false, false, attempts), NO_ACTIVATION)])
  }

  /** Reserves the volume, copies it once and records that its destination is full. */
  const FILLED: seq<Event> :=
    [ Loaded(INITIAL, false),
      Saved(Record(RESERVING, 0, [Fresh(SPEC)])),
      ReserverReturned(0, RESERVATION),
      Saved(Tried(RESERVING, 0)),
      Saved(Tried(RESERVED, 0)),
      MountsShared,
      Saved(Tried(COPYING, 0)),
      Saved(Tried(COPYING, 1)),
      CopyCalled(0, Warm, 1),
      ToolsCleaned(0, Warm, 1),
      Saved(Tried(COPYING, 1)),
      Saved(Tried(EXHAUSTED, 1))
    ]

  /** The mounts could not be restored and the driver was cancelled meanwhile; the next run copies. */
  const AFTER_CANCELLATION: seq<Event> :=
    [ FailureCancelled,
      Saved(Tried(CANCELLED, 1)),
      Loaded(Tried(CANCELLED, 1), false),
      MountsRestored,
      MountsShared,
      Saved(Tried(RETRYING, 1)),
      Saved(Tried(RETRYING, 2)),
      CopyCalled(0, Warm, 2)
    ]

  /** The save of the failure was reported as failed, and restoring a mount saved the record before it. */
  const AFTER_TAKING_BACK: seq<Event> :=
    [ TakenBack(Tried(EXHAUSTED, 1)),
      Saved(Tried(COPYING, 1)),
      Loaded(Tried(COPYING, 1), false),
      MountsRestored,
      MountsShared,
      Saved(Tried(COPYING, 1)),
      Saved(Tried(COPYING, 2)),
      CopyCalled(0, Warm, 2)
    ]

  lemma OneVolumeIsValid(s: Status, v: Volume)
    requires PodLifecycleValid(s) && s.phase != Unset
    requires v.reservation.source == "data" && VolumeValid(SPEC, v, Effective(s))
    ensures RecordValid(PLAN, Record(s, 0, [v]))
  {
    assert SPEC in PLAN.volumes;
    assert KnownAndValid(PLAN.volumes, v, Effective(s));
  }

  lemma SaveIsAllowed(m: Monitor, s: Status, v: Volume)
    requires PodLifecycleValid(s) && Effective(s) in PREPARATION_PHASES && m.seen <= PREPARATION_PHASES
    requires v.reservation.source == "data" && VolumeValid(SPEC, v, Effective(s))
    requires !Barred(m) && (m.work.shared ==> MayShare(Effective(s))) && WasDone(m, 0, v)
    ensures Allowed(PLAN, m, Saved(Record(s, 0, [v])))
  {
    hide VolumeValid, PodLifecycleValid, Barred;
    OneVolumeIsValid(s, v);
  }

  /** The first `k` events of `log` are acceptable and amount to `m`. */
  ghost predicate Reached(log: seq<Event>, k: nat, m: Monitor) {
    k <= |log| && Safe(PLAN, INITIAL, log[..k]) && m == Replay(INITIAL, log[..k], k)
  }

  /** Nothing stands in the way of preparing and copying the volume. */
  predicate Clear(m: Monitor) {
    && !m.deleting && !m.capped && !m.exhausted
    && m.seen <= PREPARATION_PHASES && m.dirty == map[]
  }

  /** The volume is reserved as the reserver said. */
  predicate Has(m: Monitor) {
    (0, RESERVATION) in m.work.returned
  }

  lemma Next(log: seq<Event>, k: nat, m: Monitor) returns (n: Monitor)
    requires k < |log| && Reached(log, k, m) && Allowed(PLAN, m, log[k])
    ensures Reached(log, k + 1, n) && n == After(m, log[k])
  {
    SafeAppend(PLAN, INITIAL, log[..k], log[k]);
    assert log[..k + 1] == log[..k] + [log[k]];
    n := After(m, log[k]);
  }

  lemma NextSave(log: seq<Event>, k: nat, m: Monitor, s: Status, v: Volume) returns (n: Monitor)
    requires k < |log| && Reached(log, k, m) && log[k] == Saved(Record(s, 0, [v]))
    requires PodLifecycleValid(s) && Effective(s) in PREPARATION_PHASES && m.seen <= PREPARATION_PHASES
    requires v.reservation.source == "data" && VolumeValid(SPEC, v, Effective(s)) && !Barred(m)
    requires (m.work.shared ==> MayShare(Effective(s))) && WasDone(m, 0, v)
    ensures Reached(log, k + 1, n) && n == After(m, log[k])
    ensures n.seen <= PREPARATION_PHASES && n.durable == Record(s, 0, [v])
    ensures n.exhausted <==> s.reason == CapacityExhausted || (m.exhausted && !m.excused)
    ensures n.dirty == m.dirty && n.copied == m.copied && n.deleting == m.deleting && n.capped == m.capped
    ensures n.excused <==> m.excused && s.reason != CapacityExhausted
    ensures n.work.shared == m.work.shared && n.work.returned == m.work.returned
  {
    hide Reached, VolumeValid, PodLifecycleValid;
    SaveIsAllowed(m, s, v);
    n := Next(log, k, m);
  }

  /** Saves of the reserved volume, which is valid in every phase before the pause except WarmCopied. */
  lemma NextTry(log: seq<Event>, k: nat, m: Monitor, s: Status, attempts: nat) returns (n: Monitor)
    requires k < |log| && Reached(log, k, m) && log[k] == Saved(Tried(s, attempts))
    requires PodLifecycleValid(s) && Effective(s) in {Reserving, Reserved, WarmCopying}
    requires m.seen <= PREPARATION_PHASES && !Barred(m) && Has(m) && (m.work.shared ==> Effective(s) != Reserving)
    ensures Reached(log, k + 1, n) && n.seen <= PREPARATION_PHASES && n.durable == Tried(s, attempts)
    ensures n.work.shared == m.work.shared && n.work.returned == m.work.returned
    ensures n.exhausted <==> s.reason == CapacityExhausted || (m.exhausted && !m.excused)
    ensures n.dirty == m.dirty && n.copied == m.copied && n.deleting == m.deleting && n.capped == m.capped
    ensures n.excused <==> m.excused && s.reason != CapacityExhausted
  {
    hide Reached, PodLifecycleValid;
    n := NextSave(log, k, m, s, Volume(RESERVATION, Sync(false, false, false, attempts), NO_ACTIVATION));
  }

  /** The next invocation is no deletion and starts from what is durable. */
  lemma NextLoad(log: seq<Event>, k: nat, m: Monitor) returns (n: Monitor)
    requires k < |log| && Reached(log, k, m) && log[k] == Loaded(m.durable, false) && Clear(m)
    ensures Reached(log, k + 1, n) && Clear(n) && !n.excused && n.durable == m.durable && n.copied == m.copied
    ensures n.work.shared == m.work.shared && n.work.returned == m.work.returned
  {
    hide Reached;
    n := Next(log, k, m);
  }

  lemma NextReserved(log: seq<Event>, k: nat, m: Monitor) returns (n: Monitor)
    requires k < |log| && Reached(log, k, m) && log[k] == ReserverReturned(0, RESERVATION) && Clear(m)
    requires PhaseOf(m.durable) == Reserving
    ensures Reached(log, k + 1, n) && Clear(n) && Has(n) && n.excused == m.excused && n.copied == m.copied
    ensures n.work.shared == m.work.shared
  {
    hide Reached;
    n := Next(log, k, m);
  }

  lemma NextMounts(log: seq<Event>, k: nat, m: Monitor) returns (n: Monitor)
    requires k < |log| && Reached(log, k, m) && Clear(m)
    requires log[k] == MountsRestored || (log[k] == MountsShared && PhaseOf(m.durable) in {Reserved, WarmCopying})
    ensures Reached(log, k + 1, n) && Clear(n) && n == m.(work := m.work.(shared := log[k] == MountsShared))
  {
    hide Reached;
    n := Next(log, k, m);
  }

  lemma NextCopy(log: seq<Event>, k: nat, m: Monitor, s: Status, attempt: nat) returns (n: Monitor)
    requires k < |log| && Reached(log, k, m) && log[k] == CopyCalled(0, Warm, attempt) && Clear(m)
    requires m.durable == Tried(s, attempt) && Effective(s) == WarmCopying && s.reason == NoReason
    requires attempt > CopiedOf(m, 0)
    ensures Reached(log, k + 1, n) && n.dirty == map[0 := Warm] && n.copied == m.copied[0 := attempt]
    ensures n.durable == m.durable && n.seen == m.seen && n.excused == m.excused
    ensures !n.deleting && !n.capped && !n.exhausted && n.work.returned == m.work.returned
  {
    hide Reached;
    n := Next(log, k, m);
  }

  lemma Statuses()
    ensures PodLifecycleValid(RESERVING) && Effective(RESERVING) == Reserving && RESERVING.reason == NoReason
    ensures PodLifecycleValid(RESERVED) && Effective(RESERVED) == Reserved && RESERVED.reason == NoReason
    ensures PodLifecycleValid(COPYING) && Effective(COPYING) == WarmCopying && COPYING.reason == NoReason
    ensures PodLifecycleValid(EXHAUSTED) && Effective(EXHAUSTED) == WarmCopying
    ensures EXHAUSTED.reason == CapacityExhausted
    ensures PodLifecycleValid(CANCELLED) && Effective(CANCELLED) == WarmCopying && CANCELLED.reason == NoReason
    ensures PodLifecycleValid(RETRYING) && Effective(RETRYING) == WarmCopying && RETRYING.reason == NoReason
  {
  }

  lemma Begins(log: seq<Event>) returns (m: Monitor)
    ensures Reached(log, 0, m) && Clear(m) && !m.excused && m.durable == INITIAL && m.copied == map[] && !m.work.shared
  {
    m := Start(INITIAL);
  }

  lemma CallsTheReserver(log: seq<Event>) returns (m: Monitor)
    requires FILLED <= log
    ensures Reached(log, 3, m) && Clear(m) && Has(m) && !m.excused && m.copied == map[] && !m.work.shared
  {
    hide Reached, Recorded, PodLifecycleValid, After, Allowed, Safe;
    Statuses();
    m := Begins(log);
    m := NextLoad(log, 0, m);
    m := NextSave(log, 1, m, RESERVING, Fresh(SPEC));
    m := NextReserved(log, 2, m);
  }

  lemma ReservesTheVolume(log: seq<Event>) returns (m: Monitor)
    requires FILLED <= log
    ensures Reached(log, 6, m) && Clear(m) && Has(m) && !m.excused && m.copied == map[]
  {
    hide Reached, Recorded, PodLifecycleValid, After, Allowed, Safe;
    Statuses();
    m := CallsTheReserver(log);
    m := NextTry(log, 3, m, RESERVING, 0);
    m := NextTry(log, 4, m, RESERVED, 0);
    m := NextMounts(log, 5, m);
  }

  lemma CopiesOnce(log: seq<Event>) returns (m: Monitor)
    requires FILLED <= log
    ensures Reached(log, 10, m) && Clear(m) && Has(m) && !m.excused && m.copied == map[0 := 1]
  {
    hide Reached, Recorded, PodLifecycleValid, After, Allowed, Safe;
    Statuses();
    m := ReservesTheVolume(log);
    m := NextTry(log, 6, m, COPYING, 0);
    m := NextTry(log, 7, m, COPYING, 1);
    m := NextCopy(log, 8, m, COPYING, 1);
    m := NextCleanup(log, 9, m);
  }

  /** A first copy runs, is cleaned up, and its destination turns out to be full. */
  lemma FillsUp(log: seq<Event>) returns (m: Monitor)
    requires FILLED <= log
    ensures Reached(log, 12, m) && m.durable == Tried(EXHAUSTED, 1) && m.copied == map[0 := 1] && Has(m)
    ensures m.exhausted && !m.excused && !m.capped && !m.deleting && m.seen <= PREPARATION_PHASES && m.dirty == map[]
  {
    hide Reached, Recorded, PodLifecycleValid, After, Allowed, Safe;
    Statuses();
    m := CopiesOnce(log);
    m := NextTry(log, 10, m, COPYING, 1);
    m := NextTry(log, 11, m, EXHAUSTED, 1);
  }

  lemma NextCleanup(log: seq<Event>, k: nat, m: Monitor) returns (n: Monitor)
    requires k < |log| && Reached(log, k, m) && log[k] == ToolsCleaned(0, Warm, CopiedOf(m, 0))
    requires m.dirty == map[0 := Warm]
    ensures Reached(log, k + 1, n) && n == m.(dirty := map[])
  {
    hide Reached;
    n := Next(log, k, m);
  }

  lemma NextExcuse(log: seq<Event>, k: nat, m: Monitor) returns (n: Monitor)
    requires k < |log| && Reached(log, k, m) && Excuse(log[k]) && (log[k].TakenBack? ==> log[k].record == m.durable)
    ensures Reached(log, k + 1, n) && n == m.(excused := true)
  {
    hide Reached;
    n := Next(log, k, m);
  }

  lemma StartsAgain(log: seq<Event>, m: Monitor) returns (n: Monitor)
    requires |log| == 20 && Reached(log, 14, m) && Clear(m) && Has(m) && m.copied == map[0 := 1]
    requires PhaseOf(m.durable) == WarmCopying
    requires log[14] == Loaded(m.durable, false) && log[15] == MountsRestored && log[16] == MountsShared
    ensures Reached(log, 17, n) && Clear(n) && Has(n) && n.copied == map[0 := 1] && !n.excused
  {
    hide Reached, After, Allowed, Safe, Replay, PhaseOf;
    n := NextLoad(log, 14, m);
    n := NextMounts(log, 15, n);
    n := NextMounts(log, 16, n);
  }

  /** From a record without the reason the next invocation copies the volume again. */
  lemma CopiesAgain(log: seq<Event>, m: Monitor, s: Status)
    requires |log| == 20 && Reached(log, 14, m) && Clear(m) && Has(m) && m.copied == map[0 := 1]
    requires PhaseOf(m.durable) == WarmCopying
    requires log[14..] ==
             [Loaded(m.durable, false), MountsRestored, MountsShared,
              Saved(Tried(s, 1)), Saved(Tried(s, 2)), CopyCalled(0, Warm, 2)]
    requires PodLifecycleValid(s) && Effective(s) == WarmCopying && s.reason == NoReason
    ensures Safe(PLAN, INITIAL, log)
  {
    hide Recorded, PodLifecycleValid, After, Allowed, Safe, Replay;
    var n := StartsAgain(log, m);
    n := NextTry(log, 17, n, s, 1);
    n := NextTry(log, 18, n, s, 2);
    n := NextCopy(log, 19, n, s, 2);
    assert log[..20] == log;
  }

  /** The excuse at 12 and the save at 13, in the invocation that recorded the failure at 11. */
  predicate CopiesAfterDropping(log: seq<Event>) {
    && |log| == 20 && SavedExhausted(log[11]) && DroppedAt(log, 11, 12, 13) && log[19] == CopyCalled(0, Warm, 2)
    && Safe(PLAN, INITIAL, log)
  }

  /**
   A driver that is cancelled while it has one more failure to record drops the reason,
   and the next run copies into the full volume.
   */
  lemma CancellationReopensTheGate()
    ensures CopiesAfterDropping(FILLED + AFTER_CANCELLATION)
  {
    hide Reached, Recorded, PodLifecycleValid, Safe, After, Allowed;
    Statuses();
    var log := FILLED + AFTER_CANCELLATION;
    var m := FillsUp(log);
    m := NextExcuse(log, 12, m);
    m := NextTry(log, 13, m, CANCELLED, 1);
    CopiesAgain(log, m, RETRYING);
  }

  /** So does a save of the failure that committed and was reported as failed. */
  lemma TakingBackReopensTheGate()
    ensures CopiesAfterDropping(FILLED + AFTER_TAKING_BACK)
  {
    hide Reached, Recorded, PodLifecycleValid, Safe, After, Allowed;
    Statuses();
    var log := FILLED + AFTER_TAKING_BACK;
    var m := FillsUp(log);
    m := NextExcuse(log, 12, m);
    m := NextTry(log, 13, m, COPYING, 1);
    CopiesAgain(log, m, COPYING);
  }
}
