/**
 The workflow status record and the rules that move it: the phase vocabulary,
 the recording of a transition, the reopening of a failed workflow, and the
 transition tables of the pod and the offline migration.
 */
module Lifecycle {

  /** `Unset` stands for the empty phase string. */
  datatype Phase =
    | Unset
    | Planned | Reserving | Reserved
    | WarmCopying | WarmCopied
    | Pausing | Paused | FinalSyncing | FinalSynced
    | Activating | Activated | Resuming | Completed
    | Aborting | Aborted
    | RollingBack | RolledBack
    | Renaming | Moving
    | Failed

  datatype Reason = NoReason | CapacityExhausted | OtherReason

  /** Times and messages are dropped; a history entry is its phase. */
  datatype Status = Status(phase: Phase, resumeFrom: Phase, reason: Reason, history: seq<Phase>)

  const MAX_HISTORY: nat := 256

  /** The phase a run continues from. */
  function Effective(s: Status): Phase {
    if s.phase == Failed then s.resumeFrom else s.phase
  }

  /** The newest entries survive the cap. */
  function Trim(history: seq<Phase>): seq<Phase> {
    if |history| <= MAX_HISTORY then history else history[|history| - MAX_HISTORY..]
  }

  /** Recording the phase already held changes nothing, not even the reason. */
  function Recorded(s: Status, next: Phase): Status {
    if s.phase == next then s
    else
      var remember := next == Failed || (next in {Aborting, RollingBack} && s.phase != Failed);
      Status(
        next,
        if remember then s.phase else s.resumeFrom,
        if next == Failed then s.reason else NoReason,
        Trim(s.history + [next]))
  }

  function Reactivated(s: Status): Status
    requires s.phase == Failed && s.resumeFrom != Unset
  {
    Status(s.resumeFrom, s.resumeFrom, NoReason, Trim(s.history + [s.resumeFrom]))
  }

  const PREPARATION_PHASES: set<Phase> := {Planned, Reserving, Reserved, WarmCopying, WarmCopied}

  /** The workload has been asked to stop and the source is still in place. */
  const HELD_PHASES: set<Phase> := {Pausing, Paused, FinalSyncing, FinalSynced}
  const CUTOVER_PHASES: set<Phase> := {Activating, Activated, Resuming, Completed}
  const ROLLBACK_PHASES: set<Phase> := {RollingBack, RolledBack}
  const ABORT_PHASES: set<Phase> := {Aborting, Aborted}
  const TERMINAL_PHASES: set<Phase> := {Completed, RolledBack, Aborted}

  predicate PodPhase(p: Phase) {
    p !in {Unset, Renaming, Moving, Failed}
  }

  predicate OfflinePhase(p: Phase) {
    PodPhase(p) && p !in {WarmCopying, WarmCopied, Pausing, Paused}
  }

  function PodEdges(current: Phase): set<Phase> {
    match current
    case Unset => {Aborted}
    case Planned => {Reserving, Aborting, Aborted}
    case Reserving => {Reserved, Aborting}
    case Reserved => {WarmCopying, Pausing, Aborting}
    case WarmCopying => {WarmCopied, Aborting}
    case WarmCopied => {WarmCopying, Pausing, Aborting}
    case Pausing => {Paused, Aborting}
    case Paused => {FinalSyncing, Aborting}
    case FinalSyncing => {FinalSynced, Aborting}
    case FinalSynced => {FinalSyncing, Activating, RollingBack, Aborting}
    case Activating => {Activated, RollingBack}
    case Activated => {Resuming, RollingBack}
    case Resuming => {Completed, RollingBack}
    case Completed => {RollingBack}
    case RollingBack => {RolledBack}
    case Aborting => {Aborted}
    case _ => {}
  }

  predicate PodMove(current: Phase, next: Phase) {
    ((current == next || next == Failed) && PodPhase(current)) || next in PodEdges(current)
  }

  function OfflineEdges(current: Phase): set<Phase> {
    match current
    case Unset => {Aborted}
    case Planned => {Reserving, Aborting, Aborted}
    case Reserving => {Reserved, Aborting}
    case Reserved => {FinalSyncing, Aborting}
    case FinalSyncing => {FinalSynced, Aborting}
    case FinalSynced => {FinalSyncing, Activating, RollingBack, Aborting}
    case Activating => {Activated, RollingBack}
    case Activated => {Resuming, Completed, RollingBack}
    case Resuming => {Completed, RollingBack}
    case Completed => {RollingBack}
    case RollingBack => {RolledBack}
    case Aborting => {Aborted}
    case _ => {}
  }

  predicate OfflineMove(current: Phase, next: Phase) {
    ((current == next || next == Failed) && OfflinePhase(current)) || next in OfflineEdges(current)
  }

  predicate PodLifecycleValid(s: Status) {
    && (s.phase == Unset || s.phase == Failed || PodPhase(s.phase))
    && (s.resumeFrom == Unset || PodPhase(s.resumeFrom))
    && (s.phase == Failed ==> s.resumeFrom != Unset)
    && (s.reason != NoReason ==>
          s.reason == CapacityExhausted && Effective(s) in {FinalSyncing, WarmCopying})
  }

  predicate OfflineLifecycleValid(s: Status) {
    && (s.phase == Unset || s.phase == Failed || OfflinePhase(s.phase))
    && (s.resumeFrom == Unset || OfflinePhase(s.resumeFrom))
    && (s.phase == Failed ==> s.resumeFrom != Unset)
    && (s.reason != NoReason ==> s.reason == CapacityExhausted && Effective(s) == FinalSyncing)
  }

  /** The phases an abort accepts, in effective form. */
  predicate AbortGate(p: Phase) {
    p == Unset || p in PREPARATION_PHASES + HELD_PHASES + ABORT_PHASES
  }

  /** The phases a deleted workflow must first drive forward. */
  predicate DeletionRequiresConvergence(p: Phase) {
    p in {Activating, Activated, Resuming, Renaming, Moving, RollingBack}
  }
}
