/**
 The pod migration executor. Its stages work on `mem` and checkpoint it as `durable`.
 Every effect may fail with nothing done, so a crash or a lost lease is the run in
 which all later effects do; a save may also be reported as failed after it
 committed. Whatever happens, the log of effects stays safe.
 */
module PodExecutor {
  import opened Lifecycle
  import opened History
  import opened Checkpoints
  import opened PodRecord
  import opened PodMonitor
  import opened PodInvariant

  datatype Command =
    | Reserve | WarmCopy | Pause | PauseAndFinalSync | FinalSync
    | Activate | ResumeWorkload | Rollback | Abort
    | Run | RequestResume | FinalizeDeleted

  /** Saving `to` does not take away the right to save `from` again. */
  ghost predicate Harmless(from: Record, to: Record) {
    PhaseOf(from) == PhaseOf(to) || PhaseOf(to) !in CUTOVER_PHASES + ROLLBACK_PHASES + ABORT_PHASES
  }

  function Attempted(r: Record, i: nat, attempts: int): Record
    requires i < |r.volumes|
  {
    With(r, i, r.volumes[i].(sync := r.volumes[i].sync.(attempts := attempts)))
  }

  predicate OnlyAttempts(r: Record, to: Record, i: nat)
    requires i < |r.volumes|
  {
    && to.status == r.status && to.passes == r.passes && |to.volumes| == |r.volumes|
    && (forall j | 0 <= j < |r.volumes| && j != i :: to.volumes[j] == r.volumes[j])
    && to.volumes[i] == r.volumes[i].(sync := r.volumes[i].sync.(attempts := to.volumes[i].sync.attempts))
  }

  /** Every volume was copied again, but those that an interrupted sync had already marked. */
  predicate Recopied(r: Record, to: Record) {
    && |to.volumes| == |r.volumes|
    && forall j | 0 <= j < |r.volumes| ::
         || (r.volumes[j].sync.finalDone && PhaseOf(r) != FinalSynced)
         || to.volumes[j].sync.attempts > r.volumes[j].sync.attempts
  }

  lemma RestartedMarks(r: Record)
    ensures
      var to := Restarted(r, Final);
      && to.passes == r.passes && |to.volumes| == |r.volumes|
      && forall j | 0 <= j < |r.volumes| ::
           && to.volumes[j].sync.attempts == r.volumes[j].sync.attempts
           && (to.volumes[j].sync.finalDone ==> r.volumes[j].sync.finalDone && PhaseOf(r) != FinalSynced)
  {
  }

  /** Only volume `i` changed, and only in its activation. */
  predicate OnlyActivation(r: Record, to: Record, i: nat) {
    && to.status == r.status && to.passes == r.passes && i < |r.volumes| == |to.volumes|
    && (forall j | 0 <= j < |r.volumes| && j != i :: to.volumes[j] == r.volumes[j])
    && to.volumes[i] == r.volumes[i].(activation := to.volumes[i].activation)
  }

  predicate Unswitched(r: Record, to: Record, i: nat) {
    OnlyActivation(r, to, i) && to.volumes[i].activation.activated == r.volumes[i].activation.activated
    && to.volumes[i].activation.active == r.volumes[i].activation.active
    && to.volumes[i].activation.rolledBack == r.volumes[i].activation.rolledBack
  }

  predicate ActivatedTo(r: Record, to: Record, i: nat) {
    OnlyActivation(r, to, i) && to.volumes[i].activation.activated
  }

  function PassesLeft(plan: Plan, r: Record): nat {
    if plan.precopyPasses > r.passes then plan.precopyPasses - r.passes else 0
  }

  function Rank(p: Phase): nat {
    match p
    case Planned => 9
    case Reserving => 8
    case Reserved => 7
    case WarmCopying => 6
    case WarmCopied => 5
    case Pausing => 4
    case Paused => 3
    case FinalSyncing => 2
    case FinalSynced => 1
    case Activating => 1
    case _ => 0
  }

  /** The driver loop gets closer to its end: fewer passes left, or as many and a later phase. */
  predicate Turn(plan: Plan, from: Record, to: Record) {
    || PassesLeft(plan, to) < PassesLeft(plan, from)
    || (PassesLeft(plan, to) == PassesLeft(plan, from) && Rank(PhaseOf(to)) < Rank(PhaseOf(from)))
  }

  /** Where a successful turn of the driver leaves the record. */
  function StageEnd(plan: Plan, r: Record): Phase {
    match PhaseOf(r)
    case Planned => Reserved
    case Reserving => Reserved
    case Reserved => if plan.precopyPasses > r.passes then WarmCopied else FinalSynced
    case WarmCopied => if plan.precopyPasses > r.passes then WarmCopied else FinalSynced
    case WarmCopying => WarmCopied
    case Aborting => Aborted
    case Aborted => Aborted
    case RollingBack => RolledBack
    case RolledBack => RolledBack
    case FinalSynced => Activated
    case Activating => Activated
    case Activated => Completed
    case Resuming => Completed
    case Completed => Completed
    case _ => FinalSynced
  }

  /** Where a successful run ends: forward, unless a rollback or an abort was under way. */
  function RunEnd(phase: Phase): Phase {
    if phase in ABORT_PHASES then Aborted else if phase in ROLLBACK_PHASES then RolledBack else Completed
  }

  /** The warm passes a run will have counted: those planned, and one more for a pass under way. */
  function PassesInTheEnd(plan: Plan, r: Record): int {
    var due := if PhaseOf(r) == WarmCopying then r.passes + 1 else r.passes;
    if PhaseOf(r) in PREPARATION_PHASES && plan.precopyPasses > due then plan.precopyPasses else due
  }

  lemma StageKeepsTheEnd(plan: Plan, r: Record, to: Record)
    requires PhaseOf(to) == StageEnd(plan, r) && PodPhase(PhaseOf(r))
    requires to.passes == if PhaseOf(to) == WarmCopied then r.passes + 1 else r.passes
    ensures Forward(PhaseOf(r)) ==> PassesInTheEnd(plan, to) == PassesInTheEnd(plan, r)
    ensures RunEnd(PhaseOf(to)) == RunEnd(PhaseOf(r))
  {
  }

  lemma EndOfRun(plan: Plan, before: Record, end: Record, start: Record)
    requires PhaseOf(end) == StageEnd(plan, before) && PhaseOf(end) in TERMINAL_PHASES
    requires RunEnd(PhaseOf(before)) == RunEnd(PhaseOf(start))
    requires Forward(PhaseOf(before)) ==>
               PassesInTheEnd(plan, end) == PassesInTheEnd(plan, start)
    ensures PhaseOf(end) == RunEnd(PhaseOf(start))
    ensures PhaseOf(end) == Completed ==> end.passes == PassesInTheEnd(plan, start)
    ensures PhaseOf(start) in PREPARATION_PHASES ==>
              PhaseOf(end) == Completed && end.passes >= plan.precopyPasses
  {
  }

  predicate RollbackPhase(p: Phase) {
    p in {FinalSynced} + CUTOVER_PHASES + ROLLBACK_PHASES
  }

  predicate SwitchPhase(p: Phase) {
    p in {FinalSynced, Activating}
  }

  predicate SwitchedPhase(p: Phase) {
    p in {Activated, Resuming, Completed}
  }

  /** The phases after whose stage the driver looks at the phase again. */
  predicate Looping(p: Phase) {
    p in PREPARATION_PHASES + HELD_PHASES + {Activating}
  }

  predicate Ending(p: Phase) {
    p in ABORT_PHASES + ROLLBACK_PHASES + {Activated, Resuming, Completed}
  }

  predicate Converging(p: Phase) {
    p in CUTOVER_PHASES + ROLLBACK_PHASES
  }

  predicate Forward(p: Phase) {
    p !in ABORT_PHASES + ROLLBACK_PHASES
  }

  lemma StageTurns(plan: Plan, r: Record, to: Record)
    requires PhaseOf(to) == StageEnd(plan, r) && Looping(PhaseOf(r))
    requires to.passes == if PhaseOf(to) == WarmCopied then r.passes + 1 else r.passes
    ensures Turn(plan, r, to) && (Converging(PhaseOf(r)) ==> Converging(PhaseOf(to)))
  {
  }

  lemma TurnsForward(plan: Plan, r: Record)
    requires Looping(PhaseOf(r))
    ensures Forward(PhaseOf(r)) && (Converging(PhaseOf(r)) ==> PhaseOf(r) == Activating)
  {
  }

  lemma LoopingOrEnding(p: Phase)
    requires PodPhase(p)
    ensures (Looping(p) || Ending(p)) && (Converging(p) ==> p !in ABORT_PHASES)
  {
  }

  lemma LastTurn(plan: Plan, r: Record)
    requires Ending(PhaseOf(r))
    ensures StageEnd(plan, r) == RunEnd(PhaseOf(r)) && RunEnd(PhaseOf(r)) in TERMINAL_PHASES
    ensures RunEnd(PhaseOf(r)) !in {WarmCopied, Failed}
  {
  }

  /** Where a deletion drives a workflow: a started cutover or rollback to its end, everything else to an abort. */
  function DeletionEnd(phase: Phase): Phase {
    if phase in {Completed, RolledBack, Aborted} then phase
    else if phase in {Activating, Activated, Resuming} then Completed
    else if phase == RollingBack then RolledBack
    else Aborted
  }

  /** A deletion converges forward exactly where an abort would be refused. */
  lemma DeletionChoice(p: Phase)
    requires (p == Unset || PodPhase(p)) && p !in TERMINAL_PHASES
    ensures DeletionRequiresConvergence(p) <==> !AbortGate(p)
    ensures DeletionEnd(p) == Aborted <==> AbortGate(p)
    ensures DeletionEnd(p) == Completed <==> p in CUTOVER_PHASES
    ensures DeletionEnd(p) == RolledBack <==> p in ROLLBACK_PHASES
  {
  }

  /** A record that is aborted is not failed again. */
  lemma AbortedRests(plan: Plan, m: Monitor, r: Record)
    requires Good(plan, m, r)
    ensures PhaseOf(r) == Aborted ==> r.status.phase == Aborted
  {
    hide InPlanOrder, VolumesGood, HeldGood, SeenGood, CallsGood, HistoryKnows;
  }

  /** The reason of a failure belongs to the phases that copy. */
  lemma ReasonPhase(plan: Plan, m: Monitor, r: Record)
    requires Good(plan, m, r)
    ensures r.status.reason == CapacityExhausted ==> PhaseOf(r) in {WarmCopying, FinalSyncing}
  {
    hide InPlanOrder, VolumesGood, HeldGood, SeenGood, CallsGood, HistoryKnows;
  }

  /** What one copy and its cleanup come to, with no other copy left behind. */
  lemma OneCopy(plan: Plan, m: Monitor, i: nat, mode: Mode, attempt: int)
    requires m.dirty == map[]
    ensures
      var copied := After(m, CopyCalled(i, mode, attempt));
      var cleaned := After(copied, ToolsCleaned(i, mode, attempt));
      && Barred(copied) == Barred(cleaned) == Barred(m) && copied.capped == cleaned.capped == m.capped
      && cleaned.dirty == map[] && (if mode == Final then i in cleaned.final else i in cleaned.work.warming)
      && WarmedOf(copied, i) == WarmedOf(cleaned, i) == WarmedOf(m, i)
      && Allowed(plan, copied, ToolsCleaned(i, mode, attempt))
  {
  }

  /** What its success comes to. */
  lemma OneSuccess(plan: Plan, m: Monitor, i: nat, mode: Mode)
    requires m.dirty == map[] && (if mode == Final then i in m.final else i in m.work.warming)
    ensures
      var done := After(m, CopySucceeded(i, mode));
      && Barred(done) == Barred(m) && done.capped == m.capped && done.dirty == map[]
      && (if mode == Final then i in done.synced else WarmedOf(done, i) == WarmedOf(m, i) + 1)
      && Allowed(plan, m, CopySucceeded(i, mode))
  {
  }

  lemma RestartedStatus(r: Record, mode: Mode)
    requires r.status.reason != CapacityExhausted
    ensures Restarted(r, mode).status.phase == CopyPhase(mode)
    ensures Restarted(r, mode).status.reason != CapacityExhausted
  {
  }

  /** The moves the stages make. */
  lemma StageMoves()
    ensures PodMove(Planned, Reserving) && PodMove(Reserving, Reserving)
    ensures PodMove(Reserving, Reserved) && PodMove(Reserved, Reserved)
    ensures PodMove(Reserved, Pausing) && PodMove(WarmCopied, Pausing) && PodMove(Pausing, Pausing) && PodMove(Pausing, Paused)
    ensures PodMove(Paused, FinalSyncing) && PodMove(FinalSyncing, FinalSyncing) && PodMove(FinalSynced, FinalSyncing)
    ensures PodMove(FinalSyncing, FinalSynced)
  {
  }

  /** The moves of the stages after the final sync. */
  lemma CutoverMoves()
    ensures PodMove(FinalSynced, Activating) && PodMove(Activating, Activating) && PodMove(Activating, Activated)
    ensures PodMove(Activated, Activated) && PodMove(Activated, Resuming) && PodMove(Resuming, Resuming)
    ensures PodMove(Resuming, Completed) && PodMove(Completed, Completed)
    ensures PodMove(RollingBack, RolledBack) && PodMove(RolledBack, RolledBack) && PodMove(Aborting, Aborted)
  {
  }

  lemma AbortMoves(phase: Phase)
    requires PodPhase(phase)
    ensures AbortGate(phase) && phase != Aborted ==> PodMove(phase, Aborting)
  {
  }

  lemma RollbackMoves(phase: Phase)
    requires phase in {FinalSynced, RollingBack} + CUTOVER_PHASES
    ensures PodMove(phase, RollingBack)
  {
  }

  lemma OnlyStatus(r: Record, to: Record)
    requires to.volumes == r.volumes
    ensures AllRolledBack(to) <==> AllRolledBack(r)
  {
  }

  lemma AfterVerified(m: Monitor)
    ensures After(m, PauseVerified) == m.(verified := true)
  {
  }

  lemma AfterSave(m: Monitor, r: Record)
    ensures
      var n := After(m, Saved(r));
      && SameButSaves(m, n) && n.work == m.work && m.seen <= n.seen && (m.forgotten ==> n.forgotten)
      && n.durable == r && PhaseOf(r) in n.seen && (Forgets(r) ==> n.forgotten)
      && (n.exhausted ==> m.exhausted || SavedExhausted(Saved(r)))
      && (r.status.reason != CapacityExhausted && !Barred(m) ==> !Barred(n))
  {
    hide Forgets, PhaseOf;
  }

  lemma NoAbortAgain()
    ensures !PodMove(Aborted, Aborting)
  {
  }

  /** What saves do not change of what happened, apart from what was done about volumes. */
  predicate SameButSaves(m: Monitor, n: Monitor) {
    && n.paused == m.paused && n.verified == m.verified && n.settling == m.settling && n.present == m.present
    && n.deleting == m.deleting && n.capped == m.capped
    && n.copied == m.copied && n.dirty == m.dirty && n.final == m.final && n.synced == m.synced
  }

  predicate SameButMounts(w: Work, x: Work) {
    && x.returned == w.returned && x.switched == w.switched && x.restored == w.restored
    && x.warming == w.warming && x.warmed == w.warmed
  }

  /** What the executor itself refuses to do to a record; everything else that stops it is a failure outside. */
  predicate Declines(command: Command, r: Record, deleting: bool, manual: bool) {
    var phase, exhausted := PhaseOf(r), r.status.reason == CapacityExhausted;
    || deleting != command.FinalizeDeleted?
    || match command
       case Reserve => phase !in {Planned, Reserving, Reserved}
       case WarmCopy => phase !in {Reserved, WarmCopying, WarmCopied} || exhausted
       case Pause => phase !in HELD_PHASES + {Reserved, WarmCopied}
       case PauseAndFinalSync =>
         phase !in HELD_PHASES + {Reserved, WarmCopied} || exhausted || (manual && phase in {Reserved, WarmCopied})
       case FinalSync => phase !in {Paused, FinalSyncing, FinalSynced} || exhausted
       case Activate => phase !in {FinalSynced, Activating, Activated, Resuming, Completed}
       case ResumeWorkload => phase !in {Activated, Resuming, Completed}
       case Rollback => !RollbackPhase(phase)
       case Abort => !AbortGate(phase)
       case Run => exhausted || (manual && phase in PREPARATION_PHASES)
       case RequestResume => exhausted
       case FinalizeDeleted => false
  }

  class PodMigrationExecutor {
    const plan: Plan
    const retries: nat
    ghost const initial: Record
    var durable: Record
    var mem: Record
    var deleting: bool
    var manual: bool  // the plan's owner holds the cutover, as of this invocation
    ghost var log: seq<Event>
    ghost var monitor: Monitor
    ghost var hitch: bool  // something outside the executor failed in this invocation

    // ------------------------------------------------------- invariants

    ghost predicate Logged()
      reads `log, `monitor
    {
      monitor == Replay(initial, log, |log|) && Safe(plan, initial, log)
    }

    /** Holds at every point, after any failure: all that a later invocation relies on. */
    ghost predicate Inv()
      reads `durable, `deleting, `log, `monitor
    {
      && Logged()
      && PlanOk(plan) && retries > 0
      && deleting == monitor.deleting
      && durable == monitor.durable
      && Good(plan, monitor, durable)
      && PhaseOf(durable) in monitor.seen
      && (Forgets(durable) ==> monitor.forgotten)
      && (monitor.exhausted ==> HeldBack(monitor, durable))
    }

    /** The record in memory may be saved. */
    ghost predicate Working()
      reads `durable, `mem, `deleting, `log, `monitor
    {
      Inv() && Good(plan, monitor, mem) && PhaseOf(mem) in monitor.seen
    }

    ghost predicate Synced()
      reads `durable, `mem, `deleting, `log, `monitor
    {
      Working() && mem == durable
    }

    lemma PlanIsSet()
      requires Inv()
      ensures plan.volumes != []
    {
    }

    lemma RetriesAreSet()
      requires Inv()
      ensures retries > 0
    {
    }

    /** Past the copy-retry gate, no capacity failure stands. */
    lemma GateIsOpen()
      requires Synced() && !deleting && PhaseOf(mem) !in ABORT_PHASES
      requires mem.status.reason != CapacityExhausted
      ensures !Barred(monitor) && !monitor.exhausted
    {
      hide Good;
      Unbarred(plan, monitor, mem);
    }

    /** A record that is not failed carries no reason. */
    lemma NoReasonUnlessFailed()
      requires Working() && mem.status.phase != Failed
      ensures mem.status.reason == NoReason
    {
      hide InPlanOrder, VolumesGood, HeldGood, SeenGood;
    }

    lemma ForgottenIfPaused()
      requires Synced() && AbortGate(PhaseOf(mem)) && !NeedsResume(mem.status)
      ensures monitor.paused && PhaseOf(mem) != Aborted ==> monitor.settling || monitor.forgotten
    {
      hide Good, Forgets, NeedsResume;
      if monitor.paused {
        SilentAbortForgot(plan, monitor, mem);
      }
    }

    /** Nothing happened but saves. */
    twostate predicate Quiet()
      reads `monitor, `deleting
    {
      && SameButSaves(old(monitor), monitor) && monitor.work == old(monitor).work
      && old(monitor).seen <= monitor.seen
      && (old(monitor).forgotten ==> monitor.forgotten)
      && deleting == old(deleting)
    }

    /** Nothing happened but saves, and the sharing or restoring of mounts. */
    twostate predicate QuietButMounts()
      reads `monitor, `deleting
    {
      && SameButSaves(old(monitor), monitor) && SameButMounts(old(monitor).work, monitor.work)
      && old(monitor).seen <= monitor.seen
      && (old(monitor).forgotten ==> monitor.forgotten)
      && deleting == old(deleting)
    }

    /** The log has only grown, and no invocation has started since. */
    twostate predicate SameInvocation()
      reads `monitor, `deleting, `log, `hitch
    {
      monitor.capped == old(monitor).capped && deleting == old(deleting) && old(log) <= log && (old(hitch) ==> hitch)
    }

    /** Saves of `saved` cannot have made a capacity failure stand unless they recorded one. */
    twostate predicate StillOpen(saved: Record)
      reads `monitor
    {
      saved.status.reason != CapacityExhausted && old(!Barred(monitor)) ==> !Barred(monitor)
    }

    /** No capacity failure stands, nor is about to, if none was. */
    twostate predicate KeptOpen()
      reads `monitor, `mem
    {
      old(!Barred(monitor) && mem.status.reason != CapacityExhausted) ==>
        !Barred(monitor) && mem.status.reason != CapacityExhausted
    }

    /** Neither the workload controller nor a switcher was called. */
    twostate predicate SameCalls()
      reads `monitor
    {
      && monitor.verified == old(monitor).verified && monitor.paused == old(monitor).paused
      && monitor.work.switched == old(monitor).work.switched && monitor.work.restored == old(monitor).work.restored
    }

    twostate predicate SameWorkload()
      reads `monitor
    {
      && monitor.paused == old(monitor).paused && monitor.settling == old(monitor).settling
      && monitor.present == old(monitor).present
      && monitor.forgotten == old(monitor).forgotten
    }

    /** The retry budget of a configuration without one is three. */
    constructor (plan: Plan, configuredRetries: int, planned: Record)
      requires PlanOk(plan)
      requires History.Initial(planned.status) && PodLifecycleValid(planned.status)
      requires planned.passes == 0 && planned.volumes == []
      ensures this.plan == plan && initial == planned && log == []
      ensures Synced()
    {
      this.plan := plan;
      this.retries := if configuredRetries <= 0 then 3 else configuredRetries;
      this.initial := planned;
      this.durable := planned;
      this.mem := planned;
      this.deleting := false;
      this.manual := false;
      this.log := [];
      this.hitch := false;
      this.monitor := Start(planned);
      new;
      KnowsInitially(planned.status);
    }

    // -------------------------------------------------------- the world

    ghost method Emit(e: Event)
      requires Working() && EventFits(e, mem) && EventFits(e, durable) && Allowed(plan, monitor, e)
      modifies `log, `monitor
      ensures Working() && monitor == After(old(monitor), e) && log == old(log) + [e]
    {
      hide Good, Allowed, Safe, Replay, After, PlanOk;
      EventGood(plan, monitor, e, mem);
      EventGood(plan, monitor, e, durable);
      RecordFields(monitor, e);
      CapacityFields(monitor, e);
      SafeAppend(plan, initial, log, e);
      log := log + [e];
      monitor := After(monitor, e);
    }

    /** A check of the cluster that changes nothing. */
    method Check() returns (ok: bool)
      modifies `hitch
      ensures hitch == (old(hitch) || !ok)
    {
      ok := *;
      hitch := hitch || !ok;
    }

    /** The UID of the claim that was put in place; none if the call failed. */
    method ClaimUid() returns (uid: string)
      modifies `hitch
      ensures hitch == (old(hitch) || uid == "")
    {
      uid := *;
      hitch := hitch || uid == "";
    }

    method Commit()
      requires Inv() && Good(plan, monitor, mem)
      modifies `durable, `log, `monitor
      ensures Inv() && Good(plan, monitor, mem) && Quiet() && SameInvocation() && StillOpen(mem)
      ensures durable == mem && monitor == After(old(monitor), Saved(mem))
    {
      hide Good, Allowed, Safe, Replay, PlanOk, Forgets, PodMove, After, Barred;
      AfterSave(monitor, mem);
      GoodMayBeSaved(plan, monitor, mem);
      GoodOnceSaved(plan, monitor, mem);
      SafeAppend(plan, initial, log, Saved(mem));
      durable := mem;
      log := log + [Saved(mem)];
      monitor := After(monitor, Saved(mem));
    }

    /** Whether a save commits and whether it is acknowledged are two questions. */
    method Save() returns (ok: bool, ghost committed: bool)
      requires Inv() && Good(plan, monitor, mem)
      modifies `durable, `log, `monitor, `hitch
      ensures Inv() && Good(plan, monitor, mem) && Quiet() && SameInvocation() && StillOpen(mem)
      ensures ok ==> committed
      ensures committed ==> durable == mem && monitor == After(old(monitor), Saved(mem))
      ensures !committed ==> durable == old(durable) && monitor == old(monitor)
      ensures !ok ==> hitch
    {
      hide Good, Inv, After, Barred;
      var commits := Check();
      var acknowledged := Check();
      if commits {
        Commit();
      }
      ok := commits && acknowledged;
      committed := commits;
    }

    method Persist() returns (ok: bool)
      requires Inv() && Good(plan, monitor, mem)
      modifies `durable, `log, `monitor, `hitch
      ensures Inv() && Good(plan, monitor, mem) && Quiet() && SameInvocation() && StillOpen(mem)
      ensures ok ==> durable == mem
      ensures
        || (durable == old(durable) && monitor == old(monitor))
        || (durable == mem && monitor == After(old(monitor), Saved(mem)))
      ensures !ok ==> hitch
    {
      hide Good, Inv, Quiet;
      ghost var committed;
      ok, committed := Save();
    }

    /** A save that committed was reported as failed; the record before it will be put back all the same. */
    ghost method TakeBack()
      requires Synced()
      modifies `log, `monitor
      ensures Synced() && Quiet() && SameInvocation()
      ensures monitor == After(old(monitor), TakenBack(durable))
      ensures old(!Barred(monitor)) ==> !Barred(monitor)
    {
      hide Good, Safe, Replay, PlanOk, Forgets, PodMove;
      Emit(TakenBack(durable));
    }

    /** Saves the record in memory, or puts the previous one back. */
    method Publish(previous: Record) returns (ok: bool)
      requires Inv() && Good(plan, monitor, mem)
      modifies `durable, `mem, `log, `monitor, `hitch
      ensures Inv() && Quiet() && SameInvocation() && StillOpen(old(mem))
      ensures ok ==> Synced() && mem == old(mem)
      ensures !ok ==> mem == previous
      ensures !ok && old(Good(plan, monitor, previous) && PhaseOf(previous) in monitor.seen)
              && Harmless(previous, old(mem)) ==>
                Working()
      ensures !ok ==> hitch
    {
      hide Good, Inv, Harmless, After;
      ghost var m := monitor;
      if Good(plan, m, previous) && Harmless(previous, mem) {
        Restorable(m, mem, previous);
      }
      ghost var committed;
      ok, committed := Save();
      RecordFields(m, Saved(mem));
      RecordFields(After(m, Saved(mem)), TakenBack(mem));
      if !ok {
        if committed {
          TakeBack();
        }
        mem := previous;
      }
    }

    lemma Restorable(m: Monitor, saved: Record, previous: Record)
      requires Good(plan, m, saved) && Good(plan, m, previous) && Harmless(previous, saved)
      ensures Good(plan, After(After(m, Saved(saved)), TakenBack(saved)), previous)
    {
      hide Good, After;
      GoodAfterSave(plan, m, saved, previous);
    }

    method Transition(next: Phase) returns (ok: bool)
      requires Working() && next != Unset
      requires Ready(monitor, mem, next) && !(PhaseOf(mem) == WarmCopied && next == WarmCopying)
      modifies `durable, `mem, `log, `monitor, `hitch
      ensures Inv() && Quiet() && SameInvocation()
      ensures ok ==> Synced() && mem == old(mem).(status := Recorded(old(mem).status, next))
      ensures ok && next != Failed ==> mem.status.phase == next
      ensures ok && next == Aborting ==> PhaseOf(old(mem)) != Aborted
      ensures !ok ==> mem == old(mem)
      ensures !ok && next !in CUTOVER_PHASES + ROLLBACK_PHASES + ABORT_PHASES ==> Working()
      ensures !ok ==> hitch || !PodMove(PhaseOf(old(mem)), next)
    {
      hide Good, PodMove, Ready;
      NoAbortAgain();
      if !PodMove(PhaseOf(mem), next) {
        return false;
      }
      var previous := mem;
      MoveGood(plan, monitor, mem, next);
      mem := mem.(status := Recorded(mem.status, next));
      ok := Publish(previous);
    }

    /** The transition that ends a stage. */
    method Finish(next: Phase) returns (ok: bool)
      requires Working() && next != Unset && next != Failed && PodMove(PhaseOf(mem), next)
      requires Ready(monitor, mem, next) && !(PhaseOf(mem) == WarmCopied && next == WarmCopying)
      modifies `durable, `mem, `log, `monitor, `hitch
      ensures Inv() && SameInvocation() && monitor.verified == old(monitor).verified
      ensures ok ==> Synced() && mem.status.phase == next && mem.passes == old(mem).passes && mem.volumes == old(mem).volumes
      ensures !ok ==> hitch
    {
      hide Good, Inv, PodMove, Ready, Recorded;
      ok := Transition(next);
    }

    /** A capacity failure that stands is not overwritten by another cause, except to delete or abort. */
    ghost predicate MayFail(capacity: bool)
      reads `monitor, `mem, `deleting
    {
      (PhaseOf(mem) == WarmCopying || PhaseOf(mem) == FinalSyncing) && !deleting ==>
        !monitor.capped && (Barred(monitor) ==> capacity)
    }

    lemma OutsideCopies()
      requires mem.status.phase != WarmCopying && mem.status.phase != FinalSyncing && mem.status.phase != Failed
      ensures MayFail(false)
    {
    }

    /** Records the cause, unless the lease is lost; a cancelled driver leaves the phase as it is. */
    method Fail(capacity: bool)
      requires PhaseOf(mem) != Aborted
      requires Working()
      requires MayFail(capacity)
      modifies `durable, `mem, `log, `monitor, `hitch
      ensures Working() && Quiet() && SameInvocation() && PhaseOf(mem) == PhaseOf(old(mem)) && mem.volumes == old(mem).volumes
      ensures mem.status.phase == Failed && old(mem).status.phase != Failed ==>
                (mem.status.reason == CapacityExhausted <==> capacity && PhaseOf(old(mem)) in {FinalSyncing, WarmCopying})
      ensures !capacity ==> KeptOpen()
    {
      hide Good, Allowed, Safe, Replay, PlanOk, Forgets, PodMove;
      var fenced: bool := *;
      if fenced {
        return;
      }
      Covered(plan, monitor, mem);
      BarredPhase(plan, monitor, mem);
      var cancelled: bool := *;
      if cancelled {
        RecordCancelled();
      } else {
        RecordFailure(
          if capacity && PhaseOf(mem) in {FinalSyncing, WarmCopying} then CapacityExhausted else NoReason);
      }
    }

    /** The failure of a stage that does not copy. */
    method GiveUp()
      requires Working() && mem.status.phase != WarmCopying && mem.status.phase != FinalSyncing && mem.status.phase != Failed
      requires mem.status.phase != Aborted
      modifies `durable, `mem, `log, `monitor, `hitch
      ensures Inv() && SameInvocation()
    {
      hide Good, Inv, KeptOpen, Quiet;
      OutsideCopies();
      Fail(false);
    }

    method RecordFailure(reason: Reason)
      requires PhaseOf(mem) != Aborted
      requires Working() && PodPhase(PhaseOf(mem))
      requires Barred(monitor) && PhaseOf(mem) !in ABORT_PHASES ==> deleting || reason == CapacityExhausted
      requires reason == NoReason || (reason == CapacityExhausted && PhaseOf(mem) in {FinalSyncing, WarmCopying})
      modifies `durable, `mem, `log, `monitor, `hitch
      ensures Working() && Quiet() && SameInvocation() && PhaseOf(mem) == PhaseOf(old(mem)) && mem.volumes == old(mem).volumes
      ensures mem == old(mem) || (mem.status.phase == Failed && mem.status.reason == reason)
      ensures reason == NoReason ==> KeptOpen()
    {
      hide Good, Allowed, Safe, Replay, PlanOk, Forgets, PodMove;
      var previous := mem;
      FailGood(plan, monitor, mem, reason);
      mem := mem.(status := Recorded(mem.status.(reason := reason), Failed));
      var saved := Publish(previous);
    }

    method RecordCancelled()
      requires Working() && PodPhase(PhaseOf(mem))
      requires monitor.capped && PhaseOf(mem) !in ABORT_PHASES ==> deleting
      modifies `durable, `mem, `log, `monitor, `hitch
      ensures Working() && Quiet() && SameInvocation() && PhaseOf(mem) == PhaseOf(old(mem)) && mem.volumes == old(mem).volumes
      ensures mem.status.phase == old(mem).status.phase
      ensures KeptOpen()
    {
      hide Good, Inv;
      NoteCancelled();
      DropReason();
    }

    ghost method NoteCancelled()
      requires Working()
      modifies `log, `monitor
      ensures Working() && Quiet() && SameInvocation() && Barred(monitor) == monitor.capped
    {
      hide Good, Safe, Replay, PlanOk, Forgets;
      Emit(FailureCancelled);
    }

    /** A cancelled driver is no cause. */
    method DropReason()
      requires Working() && (Barred(monitor) && PhaseOf(mem) !in ABORT_PHASES ==> deleting)
      modifies `durable, `mem, `log, `monitor, `hitch
      ensures Working() && Quiet() && SameInvocation() && PhaseOf(mem) == PhaseOf(old(mem)) && mem.volumes == old(mem).volumes
      ensures mem.status.phase == old(mem).status.phase
      ensures KeptOpen()
    {
      hide Good, Safe, Replay, PlanOk, Forgets, PodMove;
      var previous := mem;
      CancelGood(plan, monitor, mem);
      mem := mem.(status := mem.status.(reason := NoReason));
      var saved := Publish(previous);
    }

    /** The record of the mounts is checkpointed after each of them. */
    method SaveMounts() returns (ok: bool)
      requires Working()
      modifies `durable, `log, `monitor, `hitch
      ensures Working() && Quiet() && SameInvocation() && StillOpen(mem)
      ensures durable == old(durable) || durable == mem
      ensures !ok ==> hitch
    {
      hide Good, Allowed, Safe, Replay, PlanOk, Forgets, PodMove;
      var mounts: nat := *;
      while mounts > 0
        invariant Working() && Quiet() && SameInvocation() && StillOpen(mem)
        invariant durable == old(durable) || durable == mem
      {
        ok := Check();
        if !ok {
          return false;
        }
        ok := Persist();
        if !ok {
          return false;
        }
        mounts := mounts - 1;
      }
      ok := Check();
    }

    /** Puts the shared mounts back. */
    method RestoreMounts() returns (ok: bool)
      requires Working()
      modifies `durable, `log, `monitor, `hitch
      ensures Working() && QuietButMounts() && SameInvocation() && StillOpen(mem)
      ensures durable == old(durable) || durable == mem
      ensures ok ==> !monitor.work.shared
      ensures !ok ==> hitch
    {
      hide Good, Safe, Replay, PlanOk, Forgets;
      ok := SaveMounts();
      if ok {
        Emit(MountsRestored);
      }
    }

    /** An invocation starts from the durable record; a deletion, once requested, stays requested. */
    method Load()
      requires Inv()
      modifies `mem, `deleting, `manual, `log, `monitor, `hitch
      ensures Synced() && durable == old(durable) && (old(deleting) ==> deleting)
      ensures log == old(log) + [Loaded(durable, deleting)]
    {
      hide Good, Safe, Replay, PlanOk;
      var requested: bool := *;
      deleting := deleting || requested;
      manual := *;
      mem := durable;
      hitch := false;
      ghost var e := Loaded(durable, deleting);
      LoadGood(plan, monitor, durable, deleting);
      SafeAppend(plan, initial, log, e);
      log := log + [e];
      monitor := After(monitor, e);
    }

    // ------------------------------------------------------ reservation

    /** The reserver returns a checkpoint of the same volume, complete or not, even when it fails. */
    method ReserveVolume(i: nat) returns (ok: bool, checkpoint: Reservation)
      requires i < |mem.volumes| == |plan.volumes|
      requires mem.volumes[i].reservation.source == plan.volumes[i].sourcePVC.name
      requires ReservationValid(plan.volumes[i], mem.volumes[i].reservation)
      modifies `hitch
      ensures checkpoint.source == plan.volumes[i].sourcePVC.name
      ensures ReservationValid(plan.volumes[i], checkpoint)
      ensures hitch == (old(hitch) || !ok || !checkpoint.reserved)
    {
      ok := *;
      checkpoint := *;
      if checkpoint.source != plan.volumes[i].sourcePVC.name || !ReservationValid(plan.volumes[i], checkpoint) {
        checkpoint := mem.volumes[i].reservation;
      }
      hitch := hitch || !ok || !checkpoint.reserved;
    }

    method CallReserver(i: nat) returns (ok: bool, checkpoint: Reservation)
      requires Synced() && PhaseOf(mem) == Reserving && i < |mem.volumes| == |plan.volumes|
      requires mem.volumes[i].reservation.source == plan.volumes[i].sourcePVC.name
      requires ReservationValid(plan.volumes[i], mem.volumes[i].reservation)
      modifies `log, `monitor, `hitch
      ensures Synced() && SameInvocation() && monitor == After(old(monitor), ReserverReturned(i, checkpoint))
      ensures checkpoint.source == plan.volumes[i].sourcePVC.name
      ensures ReservationValid(plan.volumes[i], checkpoint)
      ensures !ok || !checkpoint.reserved ==> hitch
    {
      hide Good, Safe, Replay, PlanOk, Forgets;
      ok, checkpoint := ReserveVolume(i);
      Emit(ReserverReturned(i, checkpoint));
    }

    /** One volume is reserved; the checkpoint is published whether or not the reserver succeeded. */
    method ReserveCheckpoint(i: nat) returns (ok: bool)
      requires Synced() && PhaseOf(mem) == Reserving && i < |mem.volumes| && !mem.volumes[i].reservation.reserved
      modifies `durable, `mem, `log, `monitor, `hitch
      ensures Working() && SameInvocation() && mem.status == old(mem).status && mem.passes == old(mem).passes
      ensures |mem.volumes| == |old(mem).volumes|
      ensures forall j | 0 <= j < |mem.volumes| && j != i :: mem.volumes[j] == old(mem).volumes[j]
      ensures ok ==> Synced() && mem.volumes[i].reservation.reserved
      ensures !ok ==> hitch
    {
      hide Good, Inv;
      VolumeAt(plan, monitor, mem, i);
      var previous := mem;
      var reserved, checkpoint := CallReserver(i);
      ReservationFits(plan, monitor, mem, i, checkpoint);
      mem := With(mem, i, mem.volumes[i].(reservation := checkpoint));
      ok := Publish(previous);
      ok := ok && reserved && checkpoint.reserved;
    }

    method PlannedVolumes() returns (volumes: seq<Volume>)
      ensures volumes == FreshVolumes(plan.volumes)
    {
      volumes := [];
      for i := 0 to |plan.volumes|
        invariant volumes == FreshVolumes(plan.volumes)[..i]
      {
        volumes := volumes + [Fresh(plan.volumes[i])];
      }
    }

    method Reserve() returns (ok: bool)
      requires Synced()
      modifies `durable, `mem, `log, `monitor, `hitch
      ensures Inv() && SameInvocation()
      ensures ok ==> Synced() && mem.status.phase == Reserved && mem.passes == old(mem).passes
      ensures !ok ==> hitch || PhaseOf(old(mem)) !in {Planned, Reserving, Reserved}
    {
      hide Good, Inv, Quiet, Recorded, PodMove;
      StageMoves();
      Covered(plan, monitor, mem);
      ok := Check();
      if !ok || PhaseOf(mem) !in {Planned, Reserving, Reserved} {
        return false;
      }
      ok := RestoreMounts();
      if !ok {
        return false;
      }
      if mem.status.phase == Reserved {
        return true;
      }
      NotBarred(plan, monitor, mem);
      if mem.status.phase == Failed && mem.status.resumeFrom == Reserved {
        ok := Finish(Reserved);
        return;
      }
      ok := Check();
      if ok {
        ok := ReserveStorage();
      }
    }

    /** Creates the checkpoints with the phase that needs them, or neither. */
    method BeginReserving() returns (ok: bool)
      requires Synced() && PhaseOf(mem) in {Planned, Reserving}
      modifies `durable, `mem, `log, `monitor, `hitch
      ensures Inv() && SameInvocation()
      ensures ok ==> Synced() && mem.status.phase == Reserving && mem.passes == old(mem).passes
      ensures ok ==> |mem.volumes| == |plan.volumes| > 0
      ensures !ok ==> hitch
    {
      hide Good, Inv, Quiet, Recorded, PodMove;
      StageMoves();
      PlanIsSet();
      Covered(plan, monitor, mem);
      NotBarred(plan, monitor, mem);
      var previous := mem;
      if mem.volumes == [] {
        FreshGood(plan, monitor, mem);
        var volumes := PlannedVolumes();
        mem := mem.(volumes := volumes);
      }
      ok := Transition(Reserving);
      if !ok {
        mem := previous;
      }
    }

    method ReserveStorage() returns (ok: bool)
      requires Synced() && PhaseOf(mem) in {Planned, Reserving}
      modifies `durable, `mem, `log, `monitor, `hitch
      ensures Inv() && SameInvocation()
      ensures ok ==> Synced() && mem.status.phase == Reserved && mem.passes == old(mem).passes
      ensures !ok ==> hitch
    {
      hide Good, Inv, Quiet, Recorded, PodMove;
      StageMoves();
      ok := BeginReserving();
      if !ok {
        return;
      }
      ok := Check();
      if ok {
        ok := ReserveAll();
      }
      if !ok {
        GiveUp();
        return;
      }
      NotBarred(plan, monitor, mem);
      ok := Finish(Reserved);
    }

    /** Reserves what is not yet reserved, in plan order, then checks every destination. */
    method ReserveAll() returns (ok: bool)
      requires Synced() && mem.status.phase == Reserving && |mem.volumes| == |plan.volumes| > 0
      modifies `durable, `mem, `log, `monitor, `hitch
      ensures Working() && SameInvocation() && mem.status == old(mem).status && mem.passes == old(mem).passes
      ensures ok ==> Synced() && mem.volumes != []
      ensures ok ==> forall i | 0 <= i < |mem.volumes| :: mem.volumes[i].reservation.reserved
      ensures !ok ==> hitch
    {
      hide Good, Inv;
      for i := 0 to |plan.volumes|
        invariant Synced() && SameInvocation() && mem.status == old(mem).status && mem.passes == old(mem).passes
        invariant |mem.volumes| == |plan.volumes|
        invariant forall j | 0 <= j < i :: mem.volumes[j].reservation.reserved
      {
        if !mem.volumes[i].reservation.reserved {
          ok := Check();
          if !ok {
            return false;
          }
          ok := ReserveCheckpoint(i);
          if !ok {
            return false;
          }
        }
      }
      ok := Check();
    }

    // ----------------------------------------------------------- copies

    method ClearMarks(mode: Mode) returns (volumes: seq<Volume>)
      ensures volumes == Cleared(mem.volumes, mode)
    {
      volumes := [];
      for i := 0 to |mem.volumes|
        invariant volumes == Cleared(mem.volumes, mode)[..i]
      {
        var v := mem.volumes[i];
        volumes := volumes + [v.(sync := ClearedSync(v.sync, mode))];
      }
    }

    /** Starts a pass; a failed save leaves the marks of the last one. */
    method Restart(mode: Mode) returns (ok: bool)
      requires Synced() && !deleting && monitor.dirty == map[]
      requires PhaseOf(mem) !in ABORT_PHASES && mem.status.reason != CapacityExhausted
      modifies `durable, `mem, `log, `monitor, `hitch
      ensures Working() && SameInvocation() && monitor.dirty == map[]
      ensures !Barred(monitor) && mem.status.reason != CapacityExhausted
      ensures ok ==> Synced() && mem == Restarted(old(mem), mode)
      ensures ok ==> mem.status.phase == CopyPhase(mode) && |mem.volumes| == |plan.volumes|
      ensures !ok ==> mem == old(mem)
      ensures !ok ==> hitch || !PodMove(PhaseOf(old(mem)), CopyPhase(mode))
    {
      hide Good, Inv, Cleared, PodMove, Recorded, Barred, StillOpen;
      GateIsOpen();
      RestartedStatus(mem, mode);
      var next := CopyPhase(mode);
      var volumes := mem.volumes;
      if PhaseOf(mem) == (if mode == Warm then WarmCopied else FinalSynced) {
        volumes := ClearMarks(mode);
      }
      if !PodMove(PhaseOf(mem), next) {
        return false;
      }
      var previous := mem;
      mem := Record(Recorded(mem.status, next), mem.passes, volumes);
      ok := PublishPass(previous, mode);
    }

    method PublishPass(previous: Record, mode: Mode) returns (ok: bool)
      requires Inv() && Good(plan, monitor, previous) && PhaseOf(previous) in monitor.seen
      requires !Barred(monitor) && monitor.dirty == map[] && previous.status.reason != CapacityExhausted
      requires PodMove(PhaseOf(previous), CopyPhase(mode)) && mem == Restarted(previous, mode)
      modifies `durable, `mem, `log, `monitor, `hitch
      ensures Working() && SameInvocation() && !Barred(monitor) && monitor.dirty == map[]
      ensures ok ==> Synced() && mem == old(mem) && |mem.volumes| == |plan.volumes|
      ensures !ok ==> mem == previous
      ensures !ok ==> hitch
    {
      hide Good, Inv, Restarted, PodMove, Barred;
      RestartGood(plan, monitor, previous, mode);
      RestartedStatus(previous, mode);
      Covered(plan, monitor, mem);
      ok := Publish(previous);
    }

    /** One transfer and the release of its tools. */
    method Attempt(i: nat, mode: Mode) returns (copied: bool, cleaned: bool)
      requires Synced() && !deleting && monitor.dirty == map[] && i < |mem.volumes|
      requires mem.status.phase == CopyPhase(mode) && !Done(mem.volumes[i].sync, mode)
      requires mode == Final ==> monitor.verified
      requires mem.volumes[i].sync.attempts > CopiedOf(monitor, i) && mem.volumes[i].sync.attempts > 0
      requires mem.volumes[i].reservation.reserved
      modifies `log, `monitor, `hitch
      ensures Synced() && SameInvocation() && Barred(monitor) == old(Barred(monitor))
      ensures cleaned ==> monitor.dirty == map[]
      ensures copied && cleaned && mode == Final ==> i in monitor.synced
      ensures copied && cleaned && mode == Warm ==> WarmedOf(monitor, i) > old(WarmedOf(monitor, i))
      ensures !copied || !cleaned ==> hitch
    {
      hide Good, Inv, Allowed, After, Barred;
      var attempt := mem.volumes[i].sync.attempts;
      CopyMayStart(i, mode);
      OneCopy(plan, monitor, i, mode, attempt);
      Emit(CopyCalled(i, mode, attempt));
      copied := Check();
      cleaned := Check();
      if cleaned {
        Emit(ToolsCleaned(i, mode, attempt));
        if copied {
          NoteSuccess(i, mode);
        }
      }
    }

    ghost method NoteSuccess(i: nat, mode: Mode)
      requires Synced() && monitor.dirty == map[] && (if mode == Final then i in monitor.final else i in monitor.work.warming)
      modifies `log, `monitor
      ensures Synced() && SameInvocation() && Barred(monitor) == old(Barred(monitor)) && monitor.dirty == map[]
      ensures if mode == Final then i in monitor.synced else WarmedOf(monitor, i) == old(WarmedOf(monitor, i)) + 1
    {
      hide Good, Inv, Allowed, After, Barred;
      OneSuccess(plan, monitor, i, mode);
      Emit(CopySucceeded(i, mode));
    }

    lemma CopyMayStart(i: nat, mode: Mode)
      requires Synced() && !deleting && monitor.dirty == map[] && i < |mem.volumes|
      requires mem.status.phase == CopyPhase(mode) && (mode == Final ==> monitor.verified)
      requires mem.volumes[i].sync.attempts > CopiedOf(monitor, i) && mem.volumes[i].reservation.reserved
      ensures Allowed(plan, monitor, CopyCalled(i, mode, mem.volumes[i].sync.attempts))
    {
      hide Good, Safe, Replay, PlanOk, Forgets;
      NoReasonUnlessFailed();
      GateIsOpen();
      SyncingIsPaused(plan, monitor, mem);
      if mode == Final {
        NotShared(plan, monitor, mem);
      }
    }

    /** What precedes every attempt: a final copy needs the pause verified anew. */
    method BeforeAttempt(mode: Mode) returns (ok: bool)
      requires Synced()
      modifies `log, `monitor, `hitch
      ensures Synced() && SameInvocation() && Barred(monitor) == old(Barred(monitor))
      ensures monitor.dirty == old(monitor).dirty
      ensures ok && mode == Final ==> monitor.verified
      ensures !ok ==> hitch
    {
      hide Good, Inv;
      if mode == Final {
        ok := VerifyPaused();
        if !ok {
          return;
        }
      }
      ok := Check();
    }

    /** The number of the next attempt is published before the attempt. */
    method NextAttempt(i: nat, mode: Mode) returns (ok: bool)
      requires Synced() && !deleting && !Barred(monitor) && monitor.dirty == map[] && i < |mem.volumes|
      requires mem.status.phase == CopyPhase(mode)
      modifies `durable, `mem, `log, `monitor, `hitch
      ensures Working() && SameInvocation() && mem.status == old(mem).status && !Barred(monitor)
      ensures monitor.dirty == map[] && OnlyAttempts(old(mem), mem, i)
      ensures ok ==> mem.volumes[i].sync.attempts == old(mem).volumes[i].sync.attempts + 1
      ensures ok ==> Synced() && (mode == Final ==> monitor.verified)
      ensures ok ==> mem.volumes[i].sync.attempts > CopiedOf(monitor, i) && mem.volumes[i].sync.attempts > 0
      ensures ok ==> mem.volumes[i].reservation.reserved
      ensures !ok ==> hitch
    {
      hide Good, Inv, Barred;
      NoReasonUnlessFailed();
      ok := BeforeAttempt(mode);
      if !ok {
        return;
      }
      var previous := mem;
      AttemptFits(plan, monitor, mem, i);
      mem := Attempted(mem, i, mem.volumes[i].sync.attempts + 1);
      ok := Publish(previous);
    }

    /** One attempt; `again` when the next one may follow. */
    method TryCopy(i: nat, mode: Mode) returns (ok: bool, again: bool, capacity: bool)
      requires Synced() && !deleting && !Barred(monitor) && monitor.dirty == map[] && i < |mem.volumes|
      requires mem.status.phase == CopyPhase(mode) && !Done(mem.volumes[i].sync, mode)
      modifies `durable, `mem, `log, `monitor, `hitch
      ensures Working() && SameInvocation() && mem.status == old(mem).status && !Barred(monitor)
      ensures OnlyAttempts(old(mem), mem, i)
      ensures ok ==> if mode == Final then i in monitor.synced else WarmedOf(monitor, i) > mem.passes
      ensures ok || again ==>
                && Synced() && monitor.dirty == map[]
                && mem.volumes[i].sync.attempts == old(mem).volumes[i].sync.attempts + 1
      ensures (again ==> !ok) && (ok ==> !capacity) && (!ok ==> hitch)
    {
      hide Good, Inv, Barred;
      again, capacity := false, false;
      NoReasonUnlessFailed();
      ok := NextAttempt(i, mode);
      if !ok {
        return;
      }
      PassesAreDue(plan, monitor, mem, i);
      var copied, cleaned := Attempt(i, mode);
      if copied && cleaned {
        return;
      }
      ok := Persist();
      if !ok {
        return;
      }
      ok := false;
      capacity := *;
      if capacity || !cleaned {
        return;
      }
      again := Check();
    }

    /** The attempt number is durable before the transfer starts, and no transfer starts next to an uncleaned one. */
    method CopyWithRetry(i: nat, mode: Mode) returns (ok: bool, capacity: bool)
      requires Synced() && !deleting && monitor.dirty == map[] && i < |mem.volumes|
      requires mem.status.phase == CopyPhase(mode) && !Done(mem.volumes[i].sync, mode)
      modifies `durable, `mem, `log, `monitor, `hitch
      ensures Working() && SameInvocation() && mem.status == old(mem).status && !Barred(monitor)
      ensures ok ==> Synced() && monitor.dirty == map[]
      ensures ok ==> if mode == Final then i in monitor.synced else WarmedOf(monitor, i) > mem.passes
      ensures ok ==> OnlyAttempts(old(mem), mem, i)
      ensures ok ==> 0 < mem.volumes[i].sync.attempts - old(mem).volumes[i].sync.attempts <= retries
      ensures !ok ==> hitch
    {
      hide Good, Inv, Barred;
      NoReasonUnlessFailed();
      GateIsOpen();
      capacity := false;
      ok := Check();
      if !ok {
        return;
      }
      RetriesAreSet();
      for retry := 0 to retries
        invariant Synced() && SameInvocation() && monitor.dirty == map[] && !Barred(monitor)
        invariant OnlyAttempts(old(mem), mem, i)
        invariant mem.volumes[i].sync.attempts == old(mem).volumes[i].sync.attempts + retry
        invariant retry > 0 ==> !ok && hitch
      {
        var again;
        ok, again, capacity := TryCopy(i, mode);
        if !again {
          return;
        }
      }
    }

    method CleanTools(i: nat, mode: Mode) returns (ok: bool)
      requires Synced() && i < |mem.volumes|
      modifies `log, `monitor, `hitch
      ensures Synced() && SameInvocation() && SameWorkload() && monitor.copied == old(monitor).copied
      ensures forall j <- monitor.dirty :: j in old(monitor).dirty && monitor.dirty[j] == old(monitor).dirty[j]
      ensures ok && i in old(monitor).dirty && old(monitor).dirty[i] == mode ==>
                mem.volumes[i].sync.attempts == CopiedOf(monitor, i) ==> i !in monitor.dirty
      ensures !ok ==> hitch
    {
      hide Good, Safe, Replay, PlanOk, Forgets;
      ok := Check();
      if ok {
        Emit(ToolsCleaned(i, mode, mem.volumes[i].sync.attempts));
      }
    }

    /** Releases the tools an interrupted pass may have left behind, before anything else touches the volumes. */
    method CleanupInterrupted(mode: Mode) returns (ok: bool)
      requires Synced()
      modifies `log, `monitor, `hitch
      ensures Synced() && SameInvocation()
      ensures ok && PhaseOf(mem) !in {Aborting, WarmCopying, FinalSyncing} + {CopyPhase(mode)} ==> monitor.dirty == map[]
      ensures ok && PhaseOf(mem) == CopyPhase(mode) ==> monitor.dirty == map[]
      ensures !ok ==> hitch
    {
      hide Good, Inv;
      Covered(plan, monitor, mem);
      if PhaseOf(mem) != CopyPhase(mode) {
        return true;
      }
      for i := 0 to |mem.volumes|
        invariant Synced() && SameInvocation() && mem == old(mem)
        invariant forall j | 0 <= j < i :: j !in monitor.dirty
      {
        if i in monitor.dirty {
          InterruptedAreListed(plan, monitor, mem, i);
        }
        if mem.volumes[i].sync.attempts != 0 && !Done(mem.volumes[i].sync, mode) {
          ok := Check();
          if !ok {
            return;
          }
          ok := CleanTools(i, mode);
          if !ok {
            return;
          }
        }
      }
      Covered(plan, monitor, mem);
      assert monitor.dirty == map[];
      ok := true;
    }

    // ------------------------------------------------------------- warm

    method WarmCopy() returns (ok: bool)
      requires Synced() && !deleting
      modifies `durable, `mem, `log, `monitor, `hitch
      ensures Inv() && SameInvocation()
      ensures ok ==> Synced() && mem.status.phase == WarmCopied && mem.passes == old(mem).passes + 1
      ensures ok ==> !monitor.work.shared
      ensures !ok ==>
                || hitch || PhaseOf(old(mem)) !in {Reserved, WarmCopying, WarmCopied}
                || old(mem).status.reason == CapacityExhausted
    {
      hide Good, Inv;
      if PhaseOf(mem) !in {Reserved, WarmCopying, WarmCopied} || mem.status.reason == CapacityExhausted {
        return false;
      }
      ok := CleanupInterrupted(Warm);
      if !ok {
        return;
      }
      GateIsOpen();
      ok := RestoreMounts();
      if !ok {
        Fail(false);
        return;
      }
      ok := Check();
      if !ok {
        return;
      }
      ok := WarmPass();
    }

    /** A pass that stops anywhere before its end restores the mounts before it reports the failure. */
    method WarmPass() returns (ok: bool)
      requires Synced() && !deleting && !monitor.work.shared && !monitor.capped && monitor.dirty == map[]
      requires PhaseOf(mem) in {Reserved, WarmCopying, WarmCopied} && mem.status.reason != CapacityExhausted
      modifies `durable, `mem, `log, `monitor, `hitch
      ensures Inv() && SameInvocation()
      ensures ok ==> Synced() && mem.status.phase == WarmCopied && mem.passes == old(mem).passes + 1
      ensures ok ==> !monitor.work.shared
      ensures !ok ==> hitch
    {
      hide Good, Inv, Quiet;
      var capacity;
      ok, capacity := WarmVolumes();
      if !ok {
        var restored := RestoreMounts();
        if !restored {
          Fail(capacity);
        }
        return;
      }
      ok := CompletePass();
    }

    /** Whether the pass failed for want of capacity is kept for the failure its cleanup may add. */
    method WarmVolumes() returns (ok: bool, capacity: bool)
      requires Synced() && !deleting && monitor.dirty == map[]
      requires PhaseOf(mem) in {Reserved, WarmCopying, WarmCopied} && mem.status.reason != CapacityExhausted
      modifies `durable, `mem, `log, `monitor, `hitch
      ensures Working() && SameInvocation() && PhaseOf(mem) in {Reserved, WarmCopying, WarmCopied}
      ensures !capacity ==> !Barred(monitor) && mem.status.reason != CapacityExhausted
      ensures ok ==> Synced() && mem.status.phase == WarmCopying && mem.passes == old(mem).passes
      ensures ok ==> !monitor.work.shared
      ensures ok ==> forall j | 0 <= j < |mem.volumes| :: mem.volumes[j].sync.warmDone
      ensures !ok ==> hitch
    {
      hide Good, Inv;
      capacity := false;
      GateIsOpen();
      ok := PrepareMounts();
      if !ok {
        return;
      }
      ok := Restart(Warm);
      if ok {
        ok, capacity := CopyUnmarked();
      }
      if !ok {
        return;
      }
      ok := RestoreAfterPass();
    }

    method RestoreAfterPass() returns (ok: bool)
      requires Synced() && !monitor.capped && !Barred(monitor) && mem.status.phase == WarmCopying
      modifies `durable, `mem, `log, `monitor, `hitch
      ensures Working() && SameInvocation() && PhaseOf(mem) == WarmCopying
      ensures !Barred(monitor) && mem.status.reason != CapacityExhausted
      ensures ok ==> Synced() && mem == old(mem) && !monitor.work.shared
      ensures !ok ==> hitch
    {
      hide Good, Inv, Quiet;
      NoReasonUnlessFailed();
      ok := RestoreMounts();
      if !ok {
        Fail(false);
      }
    }

    /** Copies the volumes that the pass has not yet marked, in plan order. */
    method CopyUnmarked() returns (ok: bool, capacity: bool)
      requires Synced() && !deleting && !Barred(monitor) && monitor.dirty == map[]
      requires mem.status.phase == WarmCopying && |mem.volumes| == |plan.volumes|
      modifies `durable, `mem, `log, `monitor, `hitch
      ensures Working() && SameInvocation() && PhaseOf(mem) == WarmCopying
      ensures !capacity ==> !Barred(monitor) && mem.status.reason != CapacityExhausted
      ensures ok ==> Synced() && !capacity && mem.status == old(mem).status && mem.passes == old(mem).passes
      ensures ok ==> forall j | 0 <= j < |mem.volumes| :: mem.volumes[j].sync.warmDone
      ensures !ok ==> hitch
    {
      hide Good, Inv;
      capacity := false;
      ok := true;
      NoReasonUnlessFailed();
      for i := 0 to |plan.volumes|
        invariant ok && Synced() && SameInvocation() && monitor.dirty == map[] && !capacity && !Barred(monitor)
        invariant mem.status == old(mem).status && mem.passes == old(mem).passes
        invariant |mem.volumes| == |plan.volumes|
        invariant forall j | 0 <= j < i :: mem.volumes[j].sync.warmDone
      {
        if !mem.volumes[i].sync.warmDone {
          ok, capacity := WarmVolume(i);
          if !ok {
            return;
          }
        }
      }
    }

    method WarmVolume(i: nat) returns (ok: bool, capacity: bool)
      requires Synced() && !deleting && !monitor.capped && monitor.dirty == map[] && i < |mem.volumes|
      requires mem.status.phase == WarmCopying && !mem.volumes[i].sync.warmDone
      modifies `durable, `mem, `log, `monitor, `hitch
      ensures Working() && SameInvocation()
      ensures !capacity ==> !Barred(monitor) && mem.status.reason != CapacityExhausted
      ensures PhaseOf(mem) == WarmCopying && (ok ==> !capacity)
      ensures capacity && mem.status.phase == Failed ==> mem.status.reason == CapacityExhausted
      ensures ok ==>
                && Synced() && monitor.dirty == map[]
                && mem.status == old(mem).status && mem.passes == old(mem).passes
                && |mem.volumes| == |old(mem).volumes| && mem.volumes[i].sync.warmDone
                && forall j | 0 <= j < |mem.volumes| && j != i :: mem.volumes[j] == old(mem).volumes[j]
      ensures !ok ==> hitch
    {
      hide Good, Inv;
      NoReasonUnlessFailed();
      ok, capacity := CopyWithRetry(i, Warm);
      if !ok {
        Fail(capacity);
        return;
      }
      capacity := false;
      WarmDoneFits(plan, monitor, mem, i);
      var previous := mem;
      mem := With(mem, i, mem.volumes[i].(sync := mem.volumes[i].sync.(warmDone := true)));
      ok := Publish(previous);
    }

    /** The pass count and the phase are committed by one save. */
    method CompletePass() returns (ok: bool)
      requires Synced() && !deleting && mem.status.phase == WarmCopying
      requires forall j | 0 <= j < |mem.volumes| :: mem.volumes[j].sync.warmDone
      modifies `durable, `mem, `log, `monitor, `hitch
      ensures Inv() && SameInvocation() && monitor.work == old(monitor).work
      ensures ok ==> Synced() && mem.status.phase == WarmCopied && mem.passes == old(mem).passes + 1
      ensures !ok ==> hitch
    {
      hide Good, Inv;
      NoReasonUnlessFailed();
      GateIsOpen();
      PlanIsSet();
      Covered(plan, monitor, mem);
      PassGood(plan, monitor, mem);
      var previous := mem;
      mem := mem.(passes := mem.passes + 1);
      mem := mem.(status := Recorded(mem.status, WarmCopied));
      assert mem == PassDone(previous);
      ok := Publish(previous);
    }

    /** Records and enables the shared mounts of the source volumes. */
    method PrepareMounts() returns (ok: bool)
      requires Synced() && PhaseOf(mem) in {Reserved, WarmCopying, WarmCopied, Pausing}
      modifies `durable, `log, `monitor, `hitch
      ensures Synced() && QuietButMounts() && SameInvocation() && StillOpen(mem) && durable == old(durable)
      ensures !ok ==> hitch
    {
      hide Good, Safe, Replay, PlanOk, Forgets;
      Emit(MountsShared);
      ok := SaveMounts();
    }

    // ------------------------------------------------------- the workload

    method VerifyPaused() returns (ok: bool)
      requires Synced()
      modifies `log, `monitor, `hitch
      ensures Synced() && SameInvocation()
      ensures monitor == if ok then old(monitor).(verified := true) else old(monitor)
      ensures !ok ==> hitch
    {
      hide Good, Safe, Replay, PlanOk, Forgets, After;
      AfterVerified(monitor);
      ok := Check();
      if ok {
        Emit(PauseVerified);
      }
    }

    method CallPause() returns (called: bool, ok: bool)
      requires Synced() && !monitor.work.shared && (PhaseOf(mem) == Pausing || RollbackMayPause(mem))
      modifies `log, `monitor, `hitch
      ensures Synced() && SameInvocation() && (called ==> monitor.paused) && !monitor.work.shared
      ensures !called || !ok ==> hitch
    {
      hide Good, Safe, Replay, PlanOk, Forgets, NeedsPause, RollbackOriginKept;
      called := Check();
      ok := Check();
      if called {
        Emit(PauseCalled);
      }
    }

    method CallResume() returns (called: bool, ok: bool)
      requires Synced() && PhaseOf(mem) in {Resuming, RollingBack, Aborting}
      requires monitor.dirty == map[] && !monitor.work.shared
      requires PhaseOf(mem) == RollingBack ==> AllRolledBack(mem)
      requires PhaseOf(mem) == Aborting ==> AbortMayResume(mem) && (deleting ==> monitor.present)
      modifies `log, `monitor, `hitch
      ensures Synced() && SameInvocation() && monitor.dirty == map[] && !monitor.work.shared
      ensures called && ok ==> !monitor.paused
      ensures !called || !ok ==> hitch
    {
      hide Good, Inv, AllRolledBack, AbortMayResume;
      called := Check();
      ok := Check();
      if called {
        NoteResume(ok);
      }
    }

    ghost method NoteResume(ok: bool)
      requires Synced() && PhaseOf(mem) in {Resuming, RollingBack, Aborting}
      requires monitor.dirty == map[] && !monitor.work.shared
      requires PhaseOf(mem) == RollingBack ==> AllRolledBack(mem)
      requires PhaseOf(mem) == Aborting ==> AbortMayResume(mem) && (deleting ==> monitor.present)
      modifies `log, `monitor
      ensures Synced() && SameInvocation() && monitor.dirty == map[] && !monitor.work.shared
      ensures ok ==> !monitor.paused
    {
      hide Good, Safe, Replay, PlanOk, Forgets, NeedsResume;
      Emit(ResumeCalled(ok));
    }

    /** The identities a controller returns are checkpointed even when its call failed. */
    method SaveWorkload() returns (ok: bool)
      requires Synced()
      modifies `durable, `log, `monitor, `hitch
      ensures Synced() && Quiet() && SameInvocation() && durable == old(durable)
      ensures !ok ==> hitch
    {
      hide Good, Inv;
      var changed: bool := *;
      ok := true;
      if changed {
        ok := Persist();
      }
    }

    method Pause() returns (ok: bool)
      requires Synced()
      modifies `durable, `mem, `log, `monitor, `hitch
      ensures Inv() && SameInvocation()
      ensures ok ==> Synced() && monitor.verified && mem.passes == old(mem).passes
      ensures ok ==>
                if PhaseOf(old(mem)) in {Reserved, WarmCopied, Pausing} then mem.status.phase == Paused
                else PhaseOf(mem) == PhaseOf(old(mem))
      ensures !ok ==> hitch || PhaseOf(old(mem)) !in HELD_PHASES + {Reserved, WarmCopied}
    {
      hide Good, Inv, QuietButMounts;
      if PhaseOf(mem) !in HELD_PHASES + {Reserved, WarmCopied} {
        return false;
      }
      ok := RestoreMounts();
      if !ok {
        return;
      }
      if PhaseOf(mem) in {Paused, FinalSyncing, FinalSynced} {
        ok := VerifyPaused();
        return;
      }
      ok := BeginPause();
    }

    method BeginPause() returns (ok: bool)
      requires Synced() && !monitor.work.shared && PhaseOf(mem) in {Reserved, WarmCopied, Pausing}
      modifies `durable, `mem, `log, `monitor, `hitch
      ensures Inv() && SameInvocation()
      ensures ok ==> Synced() && monitor.verified && mem.status.phase == Paused && mem.passes == old(mem).passes
      ensures !ok ==> hitch
    {
      hide Good, Inv, Recorded, PodMove;
      StageMoves();
      ok := Check();
      if !ok {
        return;
      }
      NotBarred(plan, monitor, mem);
      ok := Transition(Pausing);
      if ok {
        ok := StopWorkload();
      }
    }

    method StopWorkload() returns (ok: bool)
      requires Synced() && mem.status.phase == Pausing && !monitor.work.shared
      modifies `durable, `mem, `log, `monitor, `hitch
      ensures Inv() && SameInvocation()
      ensures ok ==> Synced() && monitor.verified && mem.status.phase == Paused && mem.passes == old(mem).passes
      ensures !ok ==> hitch
    {
      hide Good, Inv, Recorded, MayFail, KeptOpen, StillOpen, PodMove;
      StageMoves();
      var called, paused := CallPause();
      if !called {
        return false;
      }
      ok := SaveWorkload();
      if !ok {
        return;
      }
      if !paused {
        GiveUp();
        return false;
      }
      ok := VerifyPaused();
      if !ok {
        GiveUp();
        return;
      }
      NotBarred(plan, monitor, mem);
      ok := Finish(Paused);
    }

    // ------------------------------------------------------------ final

    method ValidateFinalSync() returns (ok: bool)
      requires Synced()
      modifies `log, `monitor, `hitch
      ensures Synced() && SameInvocation() && monitor.dirty == old(monitor).dirty
      ensures ok ==> PhaseOf(mem) in {Paused, FinalSyncing, FinalSynced} && mem.status.reason != CapacityExhausted
      ensures ok ==> monitor.verified
      ensures !ok ==>
                || hitch || PhaseOf(old(mem)) !in {Paused, FinalSyncing, FinalSynced}
                || old(mem).status.reason == CapacityExhausted
    {
      hide Good, Inv;
      if PhaseOf(mem) !in {Paused, FinalSyncing, FinalSynced} || mem.status.reason == CapacityExhausted {
        return false;
      }
      ok := VerifyPaused();
      if ok {
        ok := Check();
      }
    }

    method FinalSync() returns (ok: bool)
      requires Synced() && !deleting
      modifies `durable, `mem, `log, `monitor, `hitch
      ensures Inv() && SameInvocation()
      ensures ok ==> Synced() && mem.status.phase == FinalSynced && mem.passes == old(mem).passes
      ensures ok ==> Recopied(old(mem), mem)
      ensures !ok ==>
                || hitch || PhaseOf(old(mem)) !in {Paused, FinalSyncing, FinalSynced}
                || old(mem).status.reason == CapacityExhausted
    {
      hide Good, Inv, Recopied;
      if PhaseOf(mem) !in {Paused, FinalSyncing, FinalSynced} || mem.status.reason == CapacityExhausted {
        return false;
      }
      GateIsOpen();
      ok := CleanupInterrupted(Final);
      if !ok {
        return;
      }
      ok := RestoreMounts();
      if !ok {
        return;
      }
      ok := ValidateFinalSync();
      if !ok {
        return;
      }
      ok := Check();
      if ok {
        ok := FinalSyncWithProbes();
      }
    }

    method FinalSyncWithProbes() returns (ok: bool)
      requires Synced() && !deleting && monitor.dirty == map[]
      requires PhaseOf(mem) in {Paused, FinalSyncing, FinalSynced} && mem.status.reason != CapacityExhausted
      modifies `durable, `mem, `log, `monitor, `hitch
      ensures Inv() && SameInvocation()
      ensures ok ==> Synced() && mem.status.phase == FinalSynced && mem.passes == old(mem).passes
      ensures ok ==> Recopied(old(mem), mem)
      ensures !ok ==> hitch
    {
      hide Good, Inv, PodMove, Recorded, Barred, Restarted;
      StageMoves();
      RestartedMarks(mem);
      ok := Restart(Final);
      if ok {
        ok := SyncUnmarked();
      }
      if ok {
        NoReasonUnlessFailed();
        GateIsOpen();
        ok := Finish(FinalSynced);
      }
    }

    /** Copies the volumes that the sync has not yet marked, in plan order. */
    method SyncUnmarked() returns (ok: bool)
      requires Synced() && !deleting && monitor.dirty == map[]
      requires mem.status.phase == FinalSyncing && |mem.volumes| == |plan.volumes|
      modifies `durable, `mem, `log, `monitor, `hitch
      ensures Inv() && SameInvocation()
      ensures ok ==>
                && Synced() && mem.status.phase == FinalSyncing && mem.passes == old(mem).passes
                && |mem.volumes| == |old(mem).volumes|
                && (forall j | 0 <= j < |mem.volumes| :: mem.volumes[j].sync.finalDone)
                && (forall j | 0 <= j < |mem.volumes| ::
                      || old(mem).volumes[j].sync.finalDone
                      || mem.volumes[j].sync.attempts > old(mem).volumes[j].sync.attempts)
      ensures !ok ==> hitch
    {
      hide Good, Inv, Barred;
      ok := true;
      for i := 0 to |plan.volumes|
        invariant ok && Synced() && SameInvocation() && monitor.dirty == map[]
        invariant mem.status.phase == FinalSyncing && mem.passes == old(mem).passes
        invariant |mem.volumes| == |plan.volumes|
        invariant forall j | 0 <= j < i :: mem.volumes[j].sync.finalDone
        invariant forall j | i <= j < |plan.volumes| :: mem.volumes[j] == old(mem).volumes[j]
        invariant forall j | 0 <= j < i ::
                    || old(mem).volumes[j].sync.finalDone
                    || mem.volumes[j].sync.attempts > old(mem).volumes[j].sync.attempts
      {
        if !mem.volumes[i].sync.finalDone {
          var capacity;
          ok, capacity := FinalVolume(i);
          if !ok {
            return;
          }
        }
      }
    }

    method FinalVolume(i: nat) returns (ok: bool, capacity: bool)
      requires Synced() && !deleting && monitor.dirty == map[] && i < |mem.volumes|
      requires mem.status.phase == FinalSyncing && !mem.volumes[i].sync.finalDone
      modifies `durable, `mem, `log, `monitor, `hitch
      ensures Working() && SameInvocation()
      ensures capacity && mem.status.phase == Failed ==> mem.status.reason == CapacityExhausted
      ensures ok ==>
                && Synced() && monitor.dirty == map[]
                && mem.status == old(mem).status && mem.passes == old(mem).passes
                && |mem.volumes| == |old(mem).volumes| && mem.volumes[i].sync.finalDone
                && mem.volumes[i].sync.attempts > old(mem).volumes[i].sync.attempts
                && forall j | 0 <= j < |mem.volumes| && j != i :: mem.volumes[j] == old(mem).volumes[j]
      ensures !ok ==> hitch
    {
      hide Good, Inv;
      ok, capacity := CopyWithRetry(i, Final);
      if !ok {
        Fail(capacity);
        return;
      }
      var checksum: bool := *;
      FinalDoneFits(plan, monitor, mem, i, checksum);
      var previous := mem;
      mem := With(mem, i, mem.volumes[i].(
        sync := mem.volumes[i].sync.(finalDone := true, checksumVerified := checksum)));
      ok := Publish(previous);
    }

    /** A manual cutover that is due, before the pause: nothing goes on. */
    ghost predicate Holds()
      reads `mem, `manual
    {
      manual && PhaseOf(mem) in {Reserved, WarmCopied} && plan.precopyPasses <= mem.passes
    }

    /** The workload and the record are as they were. */
    twostate predicate Untouched()
      reads `mem, `durable, `monitor
    {
      mem == old(mem) && durable == old(durable) && monitor.paused == old(monitor).paused
    }

    /** Stops the workload and syncs; a manual cutover or a declined approval stops before the pause. */
    method PauseAndFinalSync() returns (ok: bool)
      requires Synced() && !deleting
      modifies `durable, `mem, `log, `monitor, `hitch
      ensures Inv() && SameInvocation()
      ensures ok ==> Synced() && mem.status.phase == FinalSynced && mem.passes == old(mem).passes
      ensures manual && PhaseOf(old(mem)) in {Reserved, WarmCopied} ==> !ok && Untouched()
      ensures !ok ==>
                || hitch || PhaseOf(old(mem)) !in HELD_PHASES + {Reserved, WarmCopied}
                || old(mem).status.reason == CapacityExhausted
                || (manual && PhaseOf(old(mem)) in {Reserved, WarmCopied})
    {
      hide Good, Inv, Quiet;
      if PhaseOf(mem) !in HELD_PHASES + {Reserved, WarmCopied} || mem.status.reason == CapacityExhausted {
        return false;
      }
      if PhaseOf(mem) in {Paused, FinalSyncing, FinalSynced} {
        ok := FinalSync();
        return;
      }
      if PhaseOf(mem) in {Reserved, WarmCopied} {
        ok := CutoverGate();
        if !ok {
          return;
        }
      }
      ok := PrepareMounts();
      if !ok {
        return;
      }
      ok := Check();
      if !ok {
        return;
      }
      ok := RestoreMounts();
      if !ok {
        return;
      }
      ok := Check();
      if ok {
        ok := PauseThenSync();
      }
    }

    method PauseThenSync() returns (ok: bool)
      requires Synced() && !deleting && !monitor.work.shared && PhaseOf(mem) in {Reserved, WarmCopied, Pausing}
      modifies `durable, `mem, `log, `monitor, `hitch
      ensures Inv() && SameInvocation()
      ensures ok ==> Synced() && mem.status.phase == FinalSynced && mem.passes == old(mem).passes
      ensures !ok ==> hitch
    {
      hide Good, Inv, Quiet;
      ok := Pause();
      if !ok {
        return;
      }
      Covered(plan, monitor, mem);
      NoReasonUnlessFailed();
      ok := ValidateFinalSync();
      if !ok {
        Fail(false);
        return;
      }
      ok := FinalSyncWithProbes();
    }

    method CutoverGate() returns (ok: bool)
      requires Synced()
      modifies `durable, `log, `monitor, `hitch
      ensures Synced() && Quiet() && SameInvocation() && durable == old(durable)
      ensures monitor.paused == old(monitor).paused && (ok ==> !manual)
      ensures !ok ==> hitch || manual
    {
      hide Good, Inv;
      if manual {
        var messageSaved := SaveWorkload();
        return false;
      }
      ok := Check();
    }

    // ------------------------------------------------------- activation

    /** The switcher's checkpoint of one volume is published, or taken back. */
    method PublishActivation(i: nat, a: Activation) returns (ok: bool)
      requires Synced() && i < |mem.volumes| && ActivationStep(plan, mem, i, a)
      requires (a.activated ==> i in monitor.work.switched) && (a.rolledBack ==> i in monitor.work.restored) && StepsInOrder(a)
      modifies `durable, `mem, `log, `monitor, `hitch
      ensures Working() && SameInvocation() && SameCalls()
      ensures mem.status == old(mem).status && mem.passes == old(mem).passes
      ensures ok ==> Synced() && mem == With(old(mem), i, old(mem).volumes[i].(activation := a))
      ensures !ok ==> hitch
    {
      hide Good, Inv, ActivationStep;
      ActivationFits(plan, monitor, mem, i, a);
      var previous := mem;
      mem := With(mem, i, mem.volumes[i].(activation := a));
      ok := Check();
      if !ok {
        mem := previous;
        return;
      }
      ok := Publish(previous);
    }

    /** Both claims are deleted and the volume re-reserved, each step once, before the new claim is recorded. */
    method SwitchVolume(i: nat) returns (ok: bool)
      requires Synced() && PhaseOf(mem) == Activating && monitor.verified && i < |mem.volumes| == |plan.volumes|
      requires forall j | 0 <= j < i :: mem.volumes[j].activation.activated
      requires !mem.volumes[i].activation.activated
      modifies `durable, `mem, `log, `monitor, `hitch
      ensures Working() && SameInvocation() && monitor.verified && mem.status == old(mem).status
      ensures ok ==> ActivatedTo(old(mem), mem, i) && Synced()
      ensures !ok ==> hitch
    {
      hide Good, Inv;
      CallActivate(i);
      VolumeAt(plan, monitor, mem, i);
      var found: bool := *;
      if !found {
        ok := SwitchSteps(i);
        if !ok {
          return;
        }
      }
      var uid := ClaimUid();
      if uid == "" {
        return false;
      }
      ok := PublishActivation(i, mem.volumes[i].activation.(
        temporaryDeleted := true, sourceDeleted := true, destinationReserved := true,
        active := Some(LocalRef(plan.volumes[i].sourcePVC.name, uid)), activated := true));
    }

    method CallActivate(i: nat)
      requires Synced() && PhaseOf(mem) == Activating && monitor.verified && i < |mem.volumes|
      requires !mem.volumes[i].activation.activated
      requires forall j | 0 <= j < i :: mem.volumes[j].activation.activated
      modifies `log, `monitor
      ensures Synced() && SameInvocation() && monitor == After(old(monitor), ActivateCalled(i))
    {
      hide Good, Safe, Replay, PlanOk, Forgets;
      SwitchIsCovered(plan, monitor, mem, i);
      NotShared(plan, monitor, mem);
      Emit(ActivateCalled(i));
    }

    method SwitchSteps(i: nat) returns (ok: bool)
      requires Synced() && PhaseOf(mem) == Activating && i < |mem.volumes| == |plan.volumes|
      requires !mem.volumes[i].activation.activated
      modifies `durable, `mem, `log, `monitor, `hitch
      ensures Working() && SameInvocation() && SameCalls()
      ensures mem.status == old(mem).status
      ensures ok ==> Synced() && Unswitched(old(mem), mem, i)
      ensures ok ==>
                var a := mem.volumes[i].activation;
                a.temporaryDeleted && a.sourceDeleted && a.destinationReserved
      ensures !ok ==> hitch
    {
      hide Good, Inv;
      ok := true;
      VolumeAt(plan, monitor, mem, i);
      if !mem.volumes[i].activation.temporaryDeleted {
        ok := PublishActivation(i, mem.volumes[i].activation.(temporaryDeleted := true));
      }
      if ok && !mem.volumes[i].activation.sourceDeleted {
        ok := PublishActivation(i, mem.volumes[i].activation.(sourceDeleted := true));
      }
      if ok && !mem.volumes[i].activation.destinationReserved {
        ok := PublishActivation(i, mem.volumes[i].activation.(destinationReserved := true));
      }
    }

    method ValidateActivation() returns (ok: bool)
      requires Synced()
      modifies `log, `monitor, `hitch
      ensures Synced() && SameInvocation()
      ensures ok ==> SwitchedPhase(PhaseOf(mem)) || (SwitchPhase(PhaseOf(mem)) && monitor.verified)
      ensures (monitor == old(monitor) || monitor == old(monitor).(verified := true))
      ensures !ok ==> hitch || !(SwitchPhase(PhaseOf(old(mem))) || SwitchedPhase(PhaseOf(old(mem))))
    {
      hide Good, Inv, SwitchPhase, SwitchedPhase;
      if !SwitchedPhase(PhaseOf(mem)) {
        if !SwitchPhase(PhaseOf(mem)) {
          return false;
        }
        ok := VerifyPaused();
        if !ok {
          return;
        }
      }
      ok := Check();
    }

    method Activate() returns (ok: bool)
      requires Synced()
      modifies `durable, `mem, `log, `monitor, `hitch
      ensures Inv() && SameInvocation()
      ensures ok ==> Synced() && mem.passes == old(mem).passes && PhaseOf(mem) in CUTOVER_PHASES
      ensures ok && PhaseOf(old(mem)) in {FinalSynced, Activating} ==> mem.status.phase == Activated
      ensures !ok ==> hitch || PhaseOf(old(mem)) !in {FinalSynced, Activating, Activated, Resuming, Completed}
    {
      hide Good, Inv, Quiet, PodMove;
      CutoverMoves();
      ok := RestoreMounts();
      if !ok {
        return;
      }
      ok := ValidateActivation();
      if !ok {
        return;
      }
      if PhaseOf(mem) == Resuming || mem.status.phase in {Activated, Completed} {
        return true;
      }
      NotBarred(plan, monitor, mem);
      if PhaseOf(mem) == Completed {
        ok := Finish(Completed);
        return;
      }
      if PhaseOf(mem) == Activated {
        ok := Finish(Activated);
        return;
      }
      ok := ActivateVolumes();
    }

    method ActivateVolumes() returns (ok: bool)
      requires Synced() && monitor.verified && PhaseOf(mem) in {FinalSynced, Activating}
      modifies `durable, `mem, `log, `monitor, `hitch
      ensures Inv() && SameInvocation()
      ensures ok ==> Synced() && mem.passes == old(mem).passes && mem.status.phase == Activated
      ensures !ok ==> hitch
    {
      hide Good, Inv, KeptOpen, StillOpen, PodMove;
      CutoverMoves();
      NotBarred(plan, monitor, mem);
      ok := Transition(Activating);
      if !ok {
        return;
      }
      ok := SwitchAll();
      if !ok {
        GiveUp();
        return;
      }
      NotBarred(plan, monitor, mem);
      ok := Finish(Activated);
    }

    method SwitchAll() returns (ok: bool)
      requires Synced() && monitor.verified && mem.status.phase == Activating
      modifies `durable, `mem, `log, `monitor, `hitch
      ensures Working() && SameInvocation() && mem.status == old(mem).status
      ensures ok ==> Synced() && mem.passes == old(mem).passes
      ensures ok ==> forall j | 0 <= j < |mem.volumes| :: mem.volumes[j].activation.activated
      ensures !ok ==> hitch
    {
      hide Good, Inv;
      Covered(plan, monitor, mem);
      ok := true;
      for i := 0 to |plan.volumes|
        invariant ok && Synced() && SameInvocation() && monitor.verified
        invariant mem.status == old(mem).status && mem.passes == old(mem).passes
        invariant |mem.volumes| == |plan.volumes|
        invariant forall j | 0 <= j < i :: mem.volumes[j].activation.activated
      {
        ok := Check();
        if ok && !mem.volumes[i].activation.activated {
          ok := SwitchVolume(i);
        }
        if !ok {
          return;
        }
      }
    }

    // ----------------------------------------------------------- resume

    method ResumeWorkload() returns (ok: bool)
      requires Synced()
      modifies `durable, `mem, `log, `monitor, `hitch
      ensures Inv() && SameInvocation()
      ensures ok ==> Synced() && mem.status.phase == Completed && mem.passes == old(mem).passes
      ensures !ok ==> hitch || PhaseOf(old(mem)) !in {Activated, Resuming, Completed}
    {
      hide Good, Inv, Quiet, QuietButMounts, Recorded, KeptOpen, StillOpen, PodMove;
      CutoverMoves();
      ok := Check();
      if !ok || PhaseOf(mem) !in {Activated, Resuming, Completed} {
        return false;
      }
      ok := RestoreMounts();
      if !ok {
        return;
      }
      if mem.status.phase == Completed {
        return;
      }
      NotBarred(plan, monitor, mem);
      if PhaseOf(mem) == Completed {
        ok := Finish(Completed);
        return;
      }
      ok := FinishCutover();
    }

    method FinishCutover() returns (ok: bool)
      requires Synced() && PhaseOf(mem) in {Activated, Resuming}
      modifies `durable, `mem, `log, `monitor, `hitch
      ensures Inv() && SameInvocation()
      ensures ok ==> Synced() && mem.status.phase == Completed && mem.passes == old(mem).passes
      ensures !ok ==> hitch
    {
      hide Good, Inv, Quiet, Recorded, KeptOpen, StillOpen, PodMove;
      CutoverMoves();
      NotBarred(plan, monitor, mem);
      ok := Transition(Resuming);
      if ok {
        Covered(plan, monitor, mem);
        ok := StartWorkload(Completed);
      }
    }

    /** Restarts the workload and records the phase that promises it runs. */
    method StartWorkload(done: Phase) returns (ok: bool)
      requires Synced() && monitor.dirty == map[]
      requires done == Completed || done == RolledBack || done == Aborted
      requires mem.status.phase == (if done == Completed then Resuming else if done == RolledBack then RollingBack else Aborting)
      requires done == RolledBack ==> forall i | 0 <= i < |mem.volumes| :: mem.volumes[i].activation.rolledBack
      requires done == Aborted ==> !monitor.work.shared && AbortMayResume(mem) && (deleting ==> monitor.present)
      modifies `durable, `mem, `log, `monitor, `hitch
      ensures Inv() && SameInvocation()
      ensures ok ==> Synced() && mem.status.phase == done && mem.passes == old(mem).passes
      ensures !ok ==> hitch
    {
      hide Good, Inv, Recorded, AbortMayResume, KeptOpen, StillOpen, MayFail;
      ok := Check();
      if !ok {
        GiveUp();
        return;
      }
      if done != Aborted {
        NotShared(plan, monitor, mem);
      }
      var called, resumed := CallResume();
      if !called {
        return false;
      }
      ok := RecordStart(resumed, done);
    }

    method RecordStart(resumed: bool, done: Phase) returns (ok: bool)
      requires Synced() && monitor.dirty == map[] && (if resumed then !monitor.paused else hitch) && !monitor.work.shared
      requires done == Completed || done == RolledBack || done == Aborted
      requires mem.status.phase == (if done == Completed then Resuming else if done == RolledBack then RollingBack else Aborting)
      requires done == RolledBack ==> forall i | 0 <= i < |mem.volumes| :: mem.volumes[i].activation.rolledBack
      modifies `durable, `mem, `log, `monitor, `hitch
      ensures Inv() && SameInvocation()
      ensures ok ==> Synced() && mem.status.phase == done && mem.passes == old(mem).passes
      ensures !ok ==> hitch
    {
      hide Good, Inv, Recorded, KeptOpen, StillOpen, MayFail, PodMove;
      CutoverMoves();
      ok := SaveWorkload();
      if !ok {
        return;
      }
      ok := Check();
      if !resumed || !ok {
        GiveUp();
        return false;
      }
      if done != Aborted {
        NotBarred(plan, monitor, mem);
      }
      ok := Finish(done);
    }

    // --------------------------------------------------------- rollback

    method VolumesRestored() returns (restored: bool)
      ensures restored <==> mem.volumes != [] && forall i | 0 <= i < |mem.volumes| :: mem.volumes[i].activation.rolledBack
    {
      if |mem.volumes| == 0 {
        return false;
      }
      for i := 0 to |mem.volumes|
        invariant forall j | 0 <= j < i :: mem.volumes[j].activation.rolledBack
      {
        if !mem.volumes[i].activation.rolledBack {
          return false;
        }
      }
      return true;
    }

    method ValidateRollback() returns (ok: bool)
      requires Synced()
      modifies `log, `monitor, `hitch
      ensures Synced() && SameInvocation() && (monitor == old(monitor) || monitor == old(monitor).(verified := true))
      ensures ok ==> RollbackPhase(PhaseOf(mem))
      ensures !ok ==> hitch || !RollbackPhase(PhaseOf(old(mem)))
    {
      hide Good, Inv, RollbackPhase;
      if !RollbackPhase(PhaseOf(mem)) {
        return false;
      }
      ok := true;
      if PhaseOf(mem) != RolledBack {
        ok := VerifyForRollback();
      }
      if ok {
        ok := Check();
      }
    }

    /** A rollback that will not pause the workload itself finds it paused, unless nothing is left to restore. */
    method VerifyForRollback() returns (ok: bool)
      requires Synced()
      modifies `log, `monitor, `hitch
      ensures Synced() && SameInvocation() && (monitor == old(monitor) || monitor == old(monitor).(verified := true))
      ensures !ok ==> hitch
    {
      hide Good, Inv, NeedsPause;
      var restored := VolumesRestored();
      var pause := PodRollbackNeedsPause(mem.status);
      ok := true;
      if !restored && !pause {
        ok := VerifyPaused();
      }
    }

    method Rollback() returns (ok: bool)
      requires Synced()
      modifies `durable, `mem, `log, `monitor, `hitch
      ensures Inv() && SameInvocation()
      ensures ok ==> Synced() && mem.status.phase == RolledBack
      ensures !ok ==> hitch || !RollbackPhase(PhaseOf(old(mem)))
    {
      hide Good, Inv, Quiet, QuietButMounts, StillOpen, Recorded, PodMove, RollbackPhase;
      CutoverMoves();
      ok := ValidateRollback();
      if !ok {
        return;
      }
      ok := RestoreMounts();
      if !ok {
        return;
      }
      if PhaseOf(mem) == RolledBack {
        NotBarred(plan, monitor, mem);
        if mem.status.phase != RolledBack {
          ok := Finish(RolledBack);
        }
        return;
      }
      ok := BeginRollback();
    }

    /** The workload is paused again only if it was resumed since, and not once everything is restored. */
    method DecidePause() returns (restored: bool, pause: bool)
      requires Synced() && PhaseOf(mem) in {FinalSynced, RollingBack} + CUTOVER_PHASES
      ensures restored <==> AllRolledBack(mem)
      ensures pause <==> !restored && NeedsPause(mem.status)
    {
      hide Good, Inv, NeedsPause;
      PlanIsSet();
      Covered(plan, monitor, mem);
      restored := VolumesRestored();
      var needsPause := PodRollbackNeedsPause(mem.status);
      pause := !restored && needsPause;
    }

    /** The workload's identities are checkpointed before it is paused. */
    method PrepareToPause(pause: bool) returns (ok: bool)
      requires Synced()
      modifies `durable, `log, `monitor, `hitch
      ensures Synced() && SameInvocation() && durable == old(durable)
      ensures !ok ==> hitch
    {
      hide Good, Inv, Quiet;
      ok := true;
      if pause {
        ok := Check();
        if ok {
          ok := SaveWorkload();
        }
      }
    }

    method BeginRollback() returns (ok: bool)
      requires Synced() && RollbackPhase(PhaseOf(mem)) && PhaseOf(mem) != RolledBack
      modifies `durable, `mem, `log, `monitor, `hitch
      ensures Inv() && SameInvocation()
      ensures ok ==> Synced() && mem.status.phase == RolledBack
      ensures !ok ==> hitch
    {
      hide Good, Inv, Quiet, Recorded, NeedsPause, RollbackOriginKept, AllRolledBack, Barred, StillOpen;
      var restored, pause := DecidePause();
      ok := PrepareToPause(pause);
      if !ok {
        return;
      }
      NotBarred(plan, monitor, mem);
      RollbackMoves(PhaseOf(mem));
      PauseDecisionKept(plan, monitor, mem);
      ghost var before := mem;
      ok := Transition(RollingBack);
      if ok {
        OnlyStatus(before, mem);
        ok := RestoreSources(restored, pause);
      }
    }

    method RestoreSources(restored: bool, pause: bool) returns (ok: bool)
      requires Synced() && mem.status.phase == RollingBack && (restored <==> AllRolledBack(mem))
      requires PauseFollowsRecord(restored, pause)
      modifies `durable, `mem, `log, `monitor, `hitch
      ensures Inv() && SameInvocation()
      ensures ok ==> Synced() && mem.status.phase == RolledBack
      ensures !ok ==> hitch
    {
      hide Good, Inv, Quiet, Recorded, KeptOpen, StillOpen, MayFail, PodMove;
      ok := HoldForRestore(restored, pause);
      if !ok {
        return;
      }
      ok := RestoreVolumes(restored);
      if !ok {
        GiveUp();
        return;
      }
      Covered(plan, monitor, mem);
      ok := StartWorkload(RolledBack);
    }

    /** What the record says about pausing: it is done when it is needed, and only then or when that is forgotten. */
    ghost predicate PauseFollowsRecord(restored: bool, pause: bool)
      reads `mem
    {
      && (!restored && NeedsPause(mem.status) ==> pause)
      && (pause ==> !restored && (NeedsPause(mem.status) || !RollbackOriginKept(mem.status)))
    }

    /** The sources are restored under a pause verified now, unless they already are. */
    method HoldForRestore(restored: bool, pause: bool) returns (ok: bool)
      requires Synced() && mem.status.phase == RollingBack && (restored <==> AllRolledBack(mem))
      requires PauseFollowsRecord(restored, pause)
      modifies `durable, `mem, `log, `monitor, `hitch
      ensures Inv() && SameInvocation()
      ensures ok ==> Synced() && mem == old(mem) && (restored || (monitor.verified && HeldForRestore()))
      ensures !ok ==> hitch
    {
      hide Good, Inv, Quiet, AllRolledBack, Recorded, NeedsPause, RollbackOriginKept, HeldForRestore;
      ok := TakeHold(restored, pause);
      if ok && !restored {
        ok := VerifyForRestore();
      }
    }

    method TakeHold(restored: bool, pause: bool) returns (ok: bool)
      requires Synced() && mem.status.phase == RollingBack && (restored <==> AllRolledBack(mem))
      requires PauseFollowsRecord(restored, pause)
      modifies `durable, `mem, `log, `monitor, `hitch
      ensures Inv() && SameInvocation()
      ensures ok ==> Synced() && mem == old(mem) && (restored || HeldForRestore())
      ensures !ok ==> hitch
    {
      hide Good, Inv, Quiet, AllRolledBack, Recorded, NeedsPause, RollbackOriginKept;
      ok := true;
      if pause {
        NotShared(plan, monitor, mem);
        ok := PauseForRollback();
      } else if !restored {
        RollbackIsHeld(plan, monitor, mem);
      }
    }

    method VerifyForRestore() returns (ok: bool)
      requires Synced() && mem.status.phase == RollingBack && HeldForRestore()
      modifies `durable, `mem, `log, `monitor, `hitch
      ensures Inv() && SameInvocation()
      ensures ok ==> Synced() && mem == old(mem) && monitor.verified && HeldForRestore()
      ensures !ok ==> hitch
    {
      hide Good, Inv, Quiet, KeptOpen, StillOpen, MayFail, RollbackOriginKept;
      ok := VerifyPaused();
      if !ok {
        GiveUp();
      }
    }

    method PauseForRollback() returns (ok: bool)
      requires Synced() && mem.status.phase == RollingBack && !monitor.work.shared && RollbackMayPause(mem)
      modifies `durable, `mem, `log, `monitor, `hitch
      ensures Inv() && SameInvocation()
      ensures ok ==> Synced() && mem == old(mem) && monitor.paused
      ensures !ok ==> hitch
    {
      hide Good, Inv, Recorded, RollbackMayPause, MayFail, KeptOpen, StillOpen;
      var called, paused := CallPause();
      if !called {
        return false;
      }
      ok := SaveWorkload();
      if !ok {
        return;
      }
      if !paused {
        GiveUp();
        return false;
      }
    }

    /** The workload is paused, or the record no longer knows that this rollback had to pause it. */
    ghost predicate HeldForRestore()
      reads `monitor, `mem
    {
      monitor.paused || !RollbackOriginKept(mem.status)
    }

    /** Restores the sources from the last planned volume back to the first. */
    method RestoreVolumes(restored: bool) returns (ok: bool)
      requires Synced() && mem.status.phase == RollingBack && (restored || (monitor.verified && HeldForRestore()))
      requires restored ==> forall i | 0 <= i < |mem.volumes| :: mem.volumes[i].activation.rolledBack
      modifies `durable, `mem, `log, `monitor, `hitch
      ensures Working() && SameInvocation() && mem.status == old(mem).status
      ensures ok ==> Synced() && forall i | 0 <= i < |mem.volumes| :: mem.volumes[i].activation.rolledBack
      ensures !ok ==> hitch
    {
      hide Good, Inv, RollbackOriginKept;
      Covered(plan, monitor, mem);
      ok := true;
      for i := |plan.volumes| downto 0
        invariant ok && Synced() && SameInvocation() && mem.status == old(mem).status
        invariant |mem.volumes| == |plan.volumes|
        invariant restored || (monitor.verified && HeldForRestore())
        invariant restored ==> forall j | 0 <= j < |mem.volumes| :: mem.volumes[j].activation.rolledBack
        invariant forall j | i <= j < |mem.volumes| :: mem.volumes[j].activation.rolledBack
      {
        if !mem.volumes[i].activation.rolledBack {
          ok := RestoreVolume(i);
          if !ok {
            return;
          }
        }
      }
      ok := Check();
    }

    method RestoreVolume(i: nat) returns (ok: bool)
      requires Synced() && PhaseOf(mem) == RollingBack && monitor.verified && i < |mem.volumes| == |plan.volumes|
      requires forall j | i < j < |mem.volumes| :: mem.volumes[j].activation.rolledBack
      requires !mem.volumes[i].activation.rolledBack && HeldForRestore()
      modifies `durable, `mem, `log, `monitor, `hitch
      ensures Working() && SameInvocation() && monitor.verified && mem.status == old(mem).status && HeldForRestore()
      ensures ok ==> Synced() && OnlyActivation(old(mem), mem, i) && mem.volumes[i].activation.rolledBack
      ensures !ok ==> hitch
    {
      hide Good, Inv, RollbackOriginKept;
      CallRollback(i);
      VolumeAt(plan, monitor, mem, i);
      var uid := ClaimUid();
      if uid == "" {
        return false;
      }
      ok := PublishActivation(i, mem.volumes[i].activation.(
        active := Some(LocalRef(plan.volumes[i].sourcePVC.name, uid)), rolledBack := true));
    }

    method CallRollback(i: nat)
      requires Synced() && PhaseOf(mem) == RollingBack && monitor.verified && i < |mem.volumes|
      requires !mem.volumes[i].activation.rolledBack && HeldForRestore()
      requires forall j | i < j < |mem.volumes| :: mem.volumes[j].activation.rolledBack
      modifies `log, `monitor
      ensures Synced() && SameInvocation() && monitor == After(old(monitor), RollbackCalled(i))
    {
      hide Good, Safe, Replay, PlanOk, Forgets, RollbackOriginKept;
      NotShared(plan, monitor, mem);
      Emit(RollbackCalled(i));
    }

    // ------------------------------------------------------------ abort

    method Abort() returns (ok: bool)
      requires Synced() && (deleting ==> PhaseOf(mem) != Aborted)
      modifies `durable, `mem, `log, `monitor, `hitch
      ensures Inv() && SameInvocation()
      ensures ok ==> Synced() && mem.status.phase == Aborted
      ensures !ok ==> hitch || !AbortGate(PhaseOf(old(mem)))
    {
      hide Good, Inv, Recorded, PodMove, NeedsResume;
      ok := Check();
      if !ok || !AbortGate(PhaseOf(mem)) {
        return false;
      }
      var resume;
      ok, resume := AbortResumes();
      if !ok {
        Fail(false);
        return;
      }
      if mem.status.phase == Aborted {
        ok := RestoreMounts();
        return;
      }
      ok := BeginAbort(resume);
    }

    method BeginAbort(resume: bool) returns (ok: bool)
      requires Synced() && AbortGate(PhaseOf(mem)) && mem.status.phase != Aborted
      requires resume ==> NeedsResume(mem.status) && (deleting ==> monitor.present)
      requires !resume && monitor.paused && PhaseOf(mem) != Aborted ==> monitor.settling || monitor.forgotten
      modifies `durable, `mem, `log, `monitor, `hitch
      ensures Inv() && SameInvocation()
      ensures ok ==> Synced() && mem.status.phase == Aborted
      ensures !ok ==> hitch
    {
      hide Good, Inv, Recorded, PodMove, NeedsResume;
      Covered(plan, monitor, mem);
      AbortMoves(PhaseOf(mem));
      AbortedRests(plan, monitor, mem);
      if resume && PhaseOf(mem) != Aborted {
        ResumeDecisionKept(plan, monitor, mem);
      }
      ok := Transition(Aborting);
      if ok {
        ok := StopTools(resume);
      }
    }

    /** A deletion whose source pair is gone or going has nothing to resume the workload onto. */
    method AbortResumes() returns (ok: bool, resume: bool)
      requires Synced() && AbortGate(PhaseOf(mem))
      modifies `log, `monitor, `hitch
      ensures Synced() && SameInvocation()
      ensures !ok ==> deleting
      ensures ok && resume ==> NeedsResume(mem.status) && (deleting ==> monitor.present)
      ensures ok && !resume ==> !NeedsResume(mem.status) || monitor.settling
      ensures ok && !resume && monitor.paused && PhaseOf(mem) != Aborted ==> monitor.settling || monitor.forgotten
      ensures !ok ==> hitch
    {
      hide Good, Inv, NeedsResume;
      ok := true;
      resume := PodAbortNeedsResume(mem.status);
      if !resume {
        ForgottenIfPaused();
      } else if deleting {
        ok := Check();
        if ok {
          var settling := SourceIsSettling();
          resume := !settling;
        }
      }
    }

    method SourceIsSettling() returns (settling: bool)
      requires Synced() && deleting
      modifies `log, `monitor, `hitch
      ensures Synced() && SameInvocation()
      ensures monitor == After(old(monitor), if settling then SourceSettling else SourcePresent)
    {
      hide Good, Safe, Replay, PlanOk, Forgets;
      settling := *;
      if settling {
        Emit(SourceSettling);
      } else {
        Emit(SourcePresent);
      }
    }

    /** Stops every copy tool, restores the mounts, and only then restarts the workload. */
    method StopTools(resume: bool) returns (ok: bool)
      requires Synced() && mem.status.phase == Aborting
      requires resume ==> AbortMayResume(mem) && (deleting ==> monitor.present)
      requires resume || (monitor.paused ==> monitor.settling || monitor.forgotten)
      modifies `durable, `mem, `log, `monitor, `hitch
      ensures Inv() && SameInvocation()
      ensures ok ==> Synced() && mem.status.phase == Aborted
      ensures !ok ==> hitch
    {
      hide Good, Inv, Recorded, AbortMayResume, PodMove;
      CutoverMoves();
      ok := CleanupAll();
      if ok {
        ok := RestoreMounts();
      }
      if !ok {
        Fail(false);
        return;
      }
      if resume {
        ok := StartWorkload(Aborted);
      } else {
        ok := Finish(Aborted);
      }
    }

    method CleanupAll() returns (ok: bool)
      requires Synced() && PhaseOf(mem) == Aborting
      modifies `log, `monitor, `hitch
      ensures Synced() && SameInvocation() && SameWorkload()
      ensures ok ==> monitor.dirty == map[]
      ensures !ok ==> hitch
    {
      hide Good, Inv;
      ok := true;
      for i := 0 to |mem.volumes|
        invariant ok && Synced() && SameInvocation() && SameWorkload()
        invariant forall j | 0 <= j < i :: j !in monitor.dirty
      {
        if mem.volumes[i].sync.attempts == 0 {
          if i in monitor.dirty {
            InterruptedAreListed(plan, monitor, mem, i);
          }
        } else {
          ok := CleanVolume(i);
          if !ok {
            return;
          }
        }
      }
      Covered(plan, monitor, mem);
      assert monitor.dirty == map[];
    }

    /** Tools of both modes, whichever the last copy ran in. */
    method CleanVolume(i: nat) returns (ok: bool)
      requires Synced() && i < |mem.volumes|
      modifies `log, `monitor, `hitch
      ensures Synced() && SameInvocation() && SameWorkload()
      ensures forall j <- monitor.dirty :: j in old(monitor).dirty
      ensures ok ==> i !in monitor.dirty
      ensures !ok ==> hitch
    {
      hide Good, Inv;
      if i in monitor.dirty {
        InterruptedAreListed(plan, monitor, mem, i);
      }
      ok := Check();
      if ok {
        ok := CleanTools(i, Warm);
      }
      if ok {
        ok := CleanTools(i, Final);
      }
    }

    // ------------------------------------------------- resume and deletion

    /** A capacity failure is refused by the phase's own preflight; a held cutover is approved; any other failure is reopened. */
    method RequestResume() returns (ok: bool)
      requires Synced() && !deleting
      modifies `durable, `mem, `log, `monitor, `hitch
      ensures Inv() && SameInvocation()
      ensures ok ==> Synced() && mem.status.phase != Failed && old(mem).status.reason != CapacityExhausted
      ensures ok ==> PhaseOf(mem) == if old(Holds()) then Pausing else PhaseOf(old(mem))
      ensures ok ==> mem.passes == old(mem).passes && mem.volumes == old(mem).volumes
      ensures !ok ==> hitch || old(mem).status.reason == CapacityExhausted
    {
      hide Good, Inv, Quiet, Recorded;
      Covered(plan, monitor, mem);
      ok := Check();
      if !ok || mem.status.reason == CapacityExhausted {
        return false;
      }
      if manual && PhaseOf(mem) in {Reserved, WarmCopied} && plan.precopyPasses <= mem.passes {
        NotBarred(plan, monitor, mem);
        ok := Transition(Pausing);
        return;
      }
      if mem.status.phase == Failed {
        if PhaseOf(mem) !in ABORT_PHASES {
          GateIsOpen();
        }
        ReactivateGood(plan, monitor, mem);
        var previous := mem;
        mem := mem.(status := Reactivated(mem.status));
        ok := Publish(previous);
      }
    }

    /** A deletion drives a started cutover or rollback to its end and aborts everything else. */
    method FinalizeDeleted() returns (ok: bool)
      requires Synced() && deleting
      modifies `durable, `mem, `log, `monitor, `hitch
      ensures Inv() && SameInvocation()
      ensures ok ==> Synced() && PhaseOf(mem) == DeletionEnd(PhaseOf(old(mem)))
      ensures !ok ==> hitch
    {
      hide Good, Inv, Quiet, Recorded;
      Covered(plan, monitor, mem);
      ok := Persist();
      if !ok {
        return;
      }
      var phase := PhaseOf(mem);
      if phase !in TERMINAL_PHASES {
        DeletionChoice(phase);
        ReasonPhase(plan, monitor, mem);
        if DeletionRequiresConvergence(phase) {
          ok := Run();
        } else {
          ok := Abort();
        }
      }
    }

    // -------------------------------------------------------------- run

    lemma HeldIsLooping()
      ensures Holds() ==> Looping(PhaseOf(mem))
    {
    }

    /** One turn of the driver loop; `done` when its stage ended the run. */
    method Step() returns (ok: bool, done: bool)
      requires Synced() && (deleting ==> Converging(PhaseOf(mem)))
      modifies `durable, `mem, `log, `monitor, `hitch
      ensures Inv() && SameInvocation()
      ensures ok ==> Synced() && mem.status.phase != Failed
      ensures ok ==> PhaseOf(mem) == StageEnd(plan, old(mem)) && PodPhase(PhaseOf(old(mem)))
      ensures ok && Forward(PhaseOf(old(mem))) ==>
                mem.passes == if PhaseOf(mem) == WarmCopied then old(mem).passes + 1 else old(mem).passes
      ensures done <==> !Looping(PhaseOf(old(mem)))
      ensures old(Holds()) ==> !ok && Untouched()
      ensures ok && done ==> mem.status.phase in TERMINAL_PHASES
      ensures ok && !done ==>
                && Turn(plan, old(mem), mem) && Forward(PhaseOf(old(mem)))
                && (deleting ==> Converging(PhaseOf(mem)))
      ensures !ok ==> hitch || old(mem).status.reason == CapacityExhausted || old(Holds())
    {
      HeldIsLooping();
      hide Good, Inv, Recorded, Turn, Quiet, Holds, StageEnd, RunEnd, Looping, Ending, Converging, Forward;
      Covered(plan, monitor, mem);
      LoopingOrEnding(PhaseOf(mem));
      ghost var before := mem;
      done := !Looping(PhaseOf(mem));
      if done {
        ok := LastStep();
        if ok {
          LastTurn(plan, before);
        }
      } else {
        TurnsForward(plan, before);
        ok := Advance();
        if ok {
          StageTurns(plan, before, mem);
        }
      }
    }

    /** The stages after which the driver looks at the phase again. */
    method Advance() returns (ok: bool)
      requires Synced() && (deleting ==> PhaseOf(mem) == Activating)
      requires Looping(PhaseOf(mem))
      modifies `durable, `mem, `log, `monitor, `hitch
      ensures Inv() && SameInvocation()
      ensures ok ==> Synced() && mem.status.phase != Failed && PhaseOf(mem) == StageEnd(plan, old(mem))
      ensures old(Holds()) ==> !ok && Untouched()
      ensures ok ==> mem.passes == if PhaseOf(mem) == WarmCopied then old(mem).passes + 1 else old(mem).passes
      ensures !ok ==> hitch || old(mem).status.reason == CapacityExhausted || old(Holds())
    {
      hide Good, Inv, Recorded, Quiet;
      var phase := PhaseOf(mem);
      if phase in {Planned, Reserving} {
        ok := Check();
        if ok {
          ok := Reserve();
        }
      } else if phase == WarmCopying || (phase in {Reserved, WarmCopied} && plan.precopyPasses > mem.passes) {
        ok := WarmCopy();
      } else if phase in {Reserved, WarmCopied, Pausing} {
        ok := PauseAndFinalSync();
      } else if phase in {Paused, FinalSyncing} {
        ok := FinalSync();
      } else {
        ok := Activate();
      }
    }

    /** The stages that end a run. */
    method LastStep() returns (ok: bool)
      requires Synced() && (deleting ==> PhaseOf(mem) !in ABORT_PHASES)
      modifies `durable, `mem, `log, `monitor, `hitch
      ensures Inv() && SameInvocation()
      ensures ok ==> Synced() && Ending(PhaseOf(old(mem))) && mem.status.phase == RunEnd(PhaseOf(old(mem)))
      ensures ok && Forward(PhaseOf(old(mem))) ==> mem.passes == old(mem).passes
      ensures !ok ==> hitch || !Ending(PhaseOf(old(mem)))
    {
      hide Good, Inv, Recorded;
      if PhaseOf(mem) in ABORT_PHASES {
        ok := Abort();
      } else if PhaseOf(mem) in ROLLBACK_PHASES {
        ok := Rollback();
      } else if PhaseOf(mem) in {Activated, Resuming, Completed} {
        ok := ResumeWorkload();
      } else {
        ok := false;
      }
    }

    /** Up to the hold, a turn of the driver stays before the pause; past it, no turn leads back. */
    lemma HeldStage()
      ensures Holds() ==> manual && PhaseOf(mem) in PREPARATION_PHASES
      ensures PhaseOf(mem) in PREPARATION_PHASES && manual ==>
                Looping(PhaseOf(mem)) && (Holds() || StageEnd(plan, mem) in PREPARATION_PHASES)
      ensures PhaseOf(mem) !in PREPARATION_PHASES ==> StageEnd(plan, mem) !in PREPARATION_PHASES
    {
    }

    /**
     The loop ends. From before the pause a successful run completes the migration with
     every planned warm pass counted, and one more only for a pass that was under way.
     */
    method Run() returns (ok: bool)
      requires Synced() && (deleting ==> Converging(PhaseOf(mem)))
      modifies `durable, `mem, `log, `monitor, `hitch
      ensures Inv() && SameInvocation()
      ensures ok ==> Synced() && mem.status.phase in TERMINAL_PHASES && PhaseOf(mem) == RunEnd(PhaseOf(old(mem)))
      ensures ok && PhaseOf(mem) == Completed ==> mem.passes == PassesInTheEnd(plan, old(mem))
      ensures ok && PhaseOf(old(mem)) in PREPARATION_PHASES ==> !manual
      ensures ok && PhaseOf(old(mem)) in PREPARATION_PHASES ==>
                mem.status.phase == Completed && mem.passes >= plan.precopyPasses
      ensures !ok ==>
                || hitch || old(mem).status.reason == CapacityExhausted
                || (manual && PhaseOf(old(mem)) in PREPARATION_PHASES)
    {
      hide Good, Inv, Holds, Looping, Quiet, Recorded, StageEnd, PassesInTheEnd, RunEnd, Converging, Forward;
      while true
        invariant Synced() && SameInvocation()
        invariant deleting ==> Converging(PhaseOf(mem))
        invariant mem.status.reason == CapacityExhausted ==> old(mem).status.reason == CapacityExhausted
        invariant PhaseOf(mem) in PREPARATION_PHASES ==> PhaseOf(old(mem)) in PREPARATION_PHASES
        invariant RunEnd(PhaseOf(mem)) == RunEnd(PhaseOf(old(mem)))
        invariant manual && PhaseOf(old(mem)) in PREPARATION_PHASES ==> PhaseOf(mem) in PREPARATION_PHASES
        invariant PassesInTheEnd(plan, mem) == PassesInTheEnd(plan, old(mem))
        decreases PassesLeft(plan, mem), Rank(PhaseOf(mem))
      {
        ok := Check();
        if !ok {
          return;
        }
        HeldStage();
        ghost var before := mem;
        var done;
        ok, done := Step();
        if !ok {
          return;
        }
        NoReasonUnlessFailed();
        if Forward(PhaseOf(before)) {
          StageKeepsTheEnd(plan, before, mem);
        }
        if done {
          EndOfRun(plan, before, mem, old(mem));
          return;
        }
      }
    }

    // ------------------------------------------------------- invocations

    /**
     One command under the lease. A deleted workflow accepts only its finalization. A
     command that is not declined, and meets no failure outside the executor, succeeds.
     */
    method Invoke(command: Command) returns (ok: bool)
      requires Inv()
      modifies this
      ensures Inv() && old(log) <= log
      ensures !ok ==> hitch || Declines(command, old(durable), deleting, manual)
    {
      hide Good, Inv, Quiet, Recorded;
      Load();
      if deleting != command.FinalizeDeleted? {
        return false;
      }
      match command
      case Reserve => ok := Reserve();
      case WarmCopy => ok := WarmCopy();
      case Pause => ok := Pause();
      case PauseAndFinalSync => ok := PauseAndFinalSync();
      case FinalSync => ok := FinalSync();
      case Activate => ok := Activate();
      case ResumeWorkload => ok := ResumeWorkload();
      case Rollback => ok := Rollback();
      case Abort => ok := Abort();
      case Run => ok := Run();
      case RequestResume => ok := RequestResume();
      case FinalizeDeleted => ok := FinalizeDeleted();
    }

    /** Every run of commands, with every crash and failure in it, leaves a safe log and a valid record. */
    method Operate(commands: seq<Command>)
      requires Inv()
      modifies this
      ensures Inv() && old(log) <= log && Safe(plan, initial, log) && RecordValid(plan, durable)
    {
      for i := 0 to |commands|
        invariant Inv() && old(log) <= log
      {
        var ok := Invoke(commands[i]);
      }
      PlanOrderIsValid(plan, durable);
    }
  }
}
