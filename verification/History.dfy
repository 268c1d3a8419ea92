/**
 The two decisions that read the phase history: whether an abort must resume the
 workload and whether a rollback must pause it. The history is capped, so both
 are characterised exactly, for every legal run.
 */
module History {
  import opened Lifecycle

  /** The newest entry outside `skip`, `Unset` when there is none. */
  function LastOther(history: seq<Phase>, skip: set<Phase>): Phase {
    if history == [] then Unset
    else if history[|history| - 1] !in skip then history[|history| - 1]
    else LastOther(history[..|history| - 1], skip)
  }

  /** The newest entry before the newest `target` that is neither `target` nor `Failed`. */
  function Before(history: seq<Phase>, target: Phase): Phase {
    if history == [] then Unset
    else if history[|history| - 1] == target
    then LastOther(history[..|history| - 1], {Failed, target})
    else Before(history[..|history| - 1], target)
  }

  method PhaseBefore(history: seq<Phase>, target: Phase) returns (phase: Phase)
    ensures phase == Before(history, target)
  {
    var index := |history|;
    assert history[..index] == history;
    while index > 0
      invariant 0 <= index <= |history|
      invariant Before(history, target) == Before(history[..index], target)
    {
      index := index - 1;
      assert history[..index + 1][..index] == history[..index];
      if history[index] == target {
        var previous := index;
        while previous > 0
          invariant 0 <= previous <= index
          invariant Before(history, target) == LastOther(history[..previous], {Failed, target})
        {
          previous := previous - 1;
          assert history[..previous + 1][..previous] == history[..previous];
          if history[previous] != Failed && history[previous] != target {
            return history[previous];
          }
        }
        return Unset;
      }
    }
    return Unset;
  }

  method AbortOriginWasPaused(history: seq<Phase>) returns (held: bool)
    ensures held <==> LastOther(history, {Failed, Aborting}) in HELD_PHASES
  {
    var index := |history|;
    assert history[..index] == history;
    while index > 0
      invariant 0 <= index <= |history|
      invariant LastOther(history, {Failed, Aborting}) == LastOther(history[..index], {Failed, Aborting})
    {
      index := index - 1;
      assert history[..index + 1][..index] == history[..index];
      if history[index] != Failed && history[index] != Aborting {
        return history[index] in HELD_PHASES;
      }
    }
    return false;
  }

  predicate NeedsResume(s: Status) {
    var recorded := if s.phase in {Failed, Aborting} then s.resumeFrom else s.phase;
    var previous := if recorded == Aborting then Before(s.history, Aborting) else recorded;
    || previous in HELD_PHASES
    || ((s.phase == Aborting || s.resumeFrom == Aborting)
        && LastOther(s.history, {Failed, Aborting}) in HELD_PHASES)
  }

  method PodAbortNeedsResume(s: Status) returns (resume: bool)
    ensures resume <==> NeedsResume(s)
  {
    var previous := s.phase;
    if previous == Failed || previous == Aborting {
      previous := s.resumeFrom;
    }
    if previous == Aborting {
      previous := PhaseBefore(s.history, Aborting);
    }
    if previous in HELD_PHASES {
      return true;
    }
    var held := AbortOriginWasPaused(s.history);
    return (s.phase == Aborting || s.resumeFrom == Aborting) && held;
  }

  predicate NeedsPause(s: Status) {
    var phase := Effective(s);
    var origin := if phase == RollingBack then Before(s.history, RollingBack) else phase;
    origin in {Resuming, Completed}
  }

  method PodRollbackNeedsPause(s: Status) returns (pause: bool)
    ensures pause <==> NeedsPause(s)
  {
    var phase := s.phase;
    if phase == Failed {
      phase := s.resumeFrom;
    }
    if phase == RollingBack {
      phase := PhaseBefore(s.history, RollingBack);
    }
    return phase == Resuming || phase == Completed;
  }

  // ---------------------------------------------------------------- scans

  lemma LastOtherOfAppend(history: seq<Phase>, x: Phase, skip: set<Phase>)
    ensures LastOther(history + [x], skip) == if x in skip then LastOther(history, skip) else x
  {
    assert (history + [x])[..|history|] == history;
  }

  /** Dropping old entries loses the answer or keeps it; it never changes it. */
  lemma {:induction false} LastOtherOfSuffix(history: seq<Phase>, k: nat, skip: set<Phase>)
    requires k <= |history|
    ensures LastOther(history[k..], skip) in {Unset, LastOther(history, skip)}
  {
    if k < |history| {
      var front := history[..|history| - 1];
      assert history[k..][..|history| - k - 1] == front[k..];
      LastOtherOfSuffix(front, k, skip);
    }
  }

  /** No answer means that only skipped entries are left. */
  lemma {:induction false} LastOtherIsUnset(history: seq<Phase>, skip: set<Phase>)
    requires Unset !in history
    ensures LastOther(history, skip) == Unset <==> forall p <- history :: p in skip
  {
    if history != [] {
      var front := history[..|history| - 1];
      assert history == front + [history[|history| - 1]];
      LastOtherIsUnset(front, skip);
    }
  }

  lemma LastOtherOfRecorded(history: seq<Phase>, x: Phase, skip: set<Phase>)
    ensures LastOther(Trim(history + [x]), skip)
            in {Unset, if x in skip then LastOther(history, skip) else x}
  {
    LastOtherOfAppend(history, x, skip);
    var long := history + [x];
    if |long| > MAX_HISTORY {
      LastOtherOfSuffix(long, |long| - MAX_HISTORY, skip);
    }
  }

  /** When the newest phase is the target, the two scans agree. */
  lemma {:induction false} BeforeIsLastOther(history: seq<Phase>, target: Phase)
    requires target != Failed
    requires LastOther(history, {Failed}) == target
    ensures Before(history, target) == LastOther(history, {Failed, target})
  {
    if history != [] && history[|history| - 1] == Failed {
      BeforeIsLastOther(history[..|history| - 1], target);
    }
  }

  // ----------------------------------------------------------- legal runs

  /**
   What an executor may do to the status: a transition the table allows, a resume
   request on a failed workflow, or a cancelled failure, which clears the reason.
   */
  datatype Act = Move(next: Phase) | Reopen | Cancelled

  predicate Legal(s: Status, a: Act) {
    match a
    case Move(next) => PodMove(Effective(s), next)
    case Reopen => s.phase == Failed && s.resumeFrom != Unset
    case Cancelled => true
  }

  function Apply(s: Status, a: Act): Status
    requires Legal(s, a)
  {
    match a
    case Move(next) => Recorded(s, next)
    case Reopen => Reactivated(s)
    case Cancelled => s.(reason := NoReason)
  }

  /** A planned record: nothing but planning has been written to its history. */
  predicate Initial(s: Status) {
    && Effective(s) == Planned
    && s.resumeFrom in {Unset, Planned}
    && s.reason == NoReason
    && (forall p <- s.history :: p in {Planned, Failed})
    && |s.history| <= MAX_HISTORY
  }

  predicate LegalRun(s: Status, acts: seq<Act>)
    decreases |acts|, 0
  {
    acts != [] ==>
      var front := acts[..|acts| - 1];
      LegalRun(s, front) && Legal(Final(s, front), acts[|acts| - 1])
  }

  function Final(s: Status, acts: seq<Act>): Status
    requires LegalRun(s, acts)
    decreases |acts|, 1
  {
    if acts == [] then s
    else Apply(Final(s, acts[..|acts| - 1]), acts[|acts| - 1])
  }

  /** The effective phase a run held just before it first reached `target`; `Unset` if it never did. */
  function Origin(s: Status, acts: seq<Act>, target: Phase): Phase
    requires LegalRun(s, acts)
    decreases |acts|
  {
    if acts == [] then Unset
    else
      var front := acts[..|acts| - 1];
      var earlier := Origin(s, front, target);
      if earlier != Unset then earlier
      else if Effective(Final(s, acts)) == target then Effective(Final(s, front))
      else Unset
  }

  predicate HistoryKnows(s: Status) {
    && Unset !in s.history
    && LastOther(s.history, {Failed}) in {Unset, Effective(s)}
  }

  lemma KnowsInitially(s: Status)
    requires Initial(s)
    ensures HistoryKnows(s)
  {
    OnlyPlanned(s.history);
  }

  lemma {:induction false} OnlyPlanned(history: seq<Phase>)
    requires forall p <- history :: p in {Planned, Failed}
    ensures LastOther(history, {Failed}) in {Unset, Planned}
  {
    if history != [] {
      var front := history[..|history| - 1];
      assert forall p <- front :: p in history;
      assert history[|history| - 1] in history;
      OnlyPlanned(front);
    }
  }

  lemma KnowsAfter(s: Status, next: Phase)
    requires HistoryKnows(s) && next != Unset
    requires next == Failed ==> s.phase != Unset
    ensures HistoryKnows(Recorded(s, next))
  {
    LastOtherOfRecorded(s.history, next, {Failed});
  }

  lemma KnowsAfterReopen(s: Status)
    requires HistoryKnows(s) && s.phase == Failed && s.resumeFrom !in {Unset, Failed}
    ensures HistoryKnows(Reactivated(s))
  {
    LastOtherOfRecorded(s.history, s.resumeFrom, {Failed});
  }

  /** What a run knows about the phase that `target` was requested from. */
  ghost predicate Tracks(s: Status, target: Phase, origin: Phase) {
    && PodPhase(Effective(s))
    && HistoryKnows(s)
    && (Effective(s) == target ==>
          && origin !in {Unset, target, Failed}
          && LastOther(s.history, {Failed, target}) in {Unset, origin}
          && s.resumeFrom in {origin, target})
    && (origin != Unset ==> Effective(s) in {target, Aborted, RolledBack})
    && (origin == Unset && target == Aborting ==> s.resumeFrom != Aborting)
  }

  lemma {:induction false} RunTracks(s: Status, acts: seq<Act>, target: Phase)
    requires Initial(s) && LegalRun(s, acts) && target in {Aborting, RollingBack}
    ensures Tracks(Final(s, acts), target, Origin(s, acts, target))
    decreases |acts|
  {
    if acts == [] {
      KnowsInitially(s);
    } else {
      var front := acts[..|acts| - 1];
      RunTracks(s, front, target);
      var a := acts[|acts| - 1];
      match a
      case Move(next) => MoveTracks(Final(s, front), next, target, Origin(s, front, target));
      case Reopen => ReopenTracks(Final(s, front), target, Origin(s, front, target));
      case Cancelled =>
    }
  }

  ghost function NextOrigin(s: Status, t: Status, target: Phase, origin: Phase): Phase {
    if origin != Unset then origin
    else if Effective(t) == target then Effective(s)
    else Unset
  }

  lemma MoveTracks(s: Status, next: Phase, target: Phase, origin: Phase)
    requires target in {Aborting, RollingBack} && PodMove(Effective(s), next)
    requires Tracks(s, target, origin)
    ensures Tracks(Recorded(s, next), target, NextOrigin(s, Recorded(s, next), target, origin))
  {
    hide LastOther, Trim;
    var e := Effective(s);
    var t := Recorded(s, next);
    if s.phase != next {
      KnowsAfter(s, next);
      LastOtherOfRecorded(s.history, next, {Failed, target});
      LastOtherWidens(s.history, target);
      if next == Failed {
        assert Effective(t) == e;
      } else if next == e {
        assert s.phase == Failed;
      } else if next == target {
        assert target in PodEdges(e);
      } else {
        assert next in PodEdges(e);
      }
    }
  }

  lemma ReopenTracks(s: Status, target: Phase, origin: Phase)
    requires target in {Aborting, RollingBack} && s.phase == Failed && s.resumeFrom != Unset
    requires Tracks(s, target, origin)
    ensures Tracks(Reactivated(s), target, NextOrigin(s, Reactivated(s), target, origin))
  {
    KnowsAfterReopen(s);
    LastOtherOfRecorded(s.history, s.resumeFrom, {Failed, target});
  }

  // ------------------------------------------------------------ decisions

  /**
   The record still knows where the abort came from: either this is the first
   attempt, whose origin is in `resumeFrom`, or the capped history still holds an
   entry other than the abort attempts themselves.
   */
  predicate AbortOriginKept(s: Status) {
    s.resumeFrom != Aborting || exists p <- s.history :: p !in {Failed, Aborting}
  }

  predicate RollbackOriginKept(s: Status) {
    exists p <- s.history :: p !in {Failed, RollingBack}
  }

  /**
   An abort resumes the workload exactly when the abort was, or would now be,
   requested with the workload held, as long as the record still knows it.
   */
  lemma AbortDecision(s: Status, acts: seq<Act>)
    requires Initial(s) && LegalRun(s, acts)
    ensures
      var t := Final(s, acts);
      NeedsResume(t) <==>
        || Effective(t) in {Pausing, Paused, FinalSyncing, FinalSynced}
        || (Effective(t) == Aborting
            && Origin(s, acts, Aborting) in {Pausing, Paused, FinalSyncing, FinalSynced}
            && AbortOriginKept(t))
  {
    RunTracks(s, acts, Aborting);
    var t := Final(s, acts);
    LastOtherIsUnset(t.history, {Failed, Aborting});
    LastOtherWidens(t.history, Aborting);
    if LastOther(t.history, {Failed}) == Aborting {
      BeforeIsLastOther(t.history, Aborting);
    } else if Effective(t) == Aborting {
      BeforeIsUnset(t.history, Aborting);
    }
  }

  /** A rollback pauses the workload exactly when it was requested after the workload was resumed. */
  lemma RollbackDecision(s: Status, acts: seq<Act>)
    requires Initial(s) && LegalRun(s, acts)
    ensures
      var t := Final(s, acts);
      NeedsPause(t) <==>
        || Effective(t) in {Resuming, Completed}
        || (Effective(t) == RollingBack
            && Origin(s, acts, RollingBack) in {Resuming, Completed}
            && RollbackOriginKept(t))
  {
    RunTracks(s, acts, RollingBack);
    var t := Final(s, acts);
    LastOtherIsUnset(t.history, {Failed, RollingBack});
    LastOtherWidens(t.history, RollingBack);
    if LastOther(t.history, {Failed}) == RollingBack {
      BeforeIsLastOther(t.history, RollingBack);
    } else if Effective(t) == RollingBack {
      BeforeIsUnset(t.history, RollingBack);
    }
  }

  lemma {:induction false} BeforeIsUnset(history: seq<Phase>, target: Phase)
    requires target != Failed && LastOther(history, {Failed}) == Unset && Unset !in history
    ensures Before(history, target) == Unset
  {
    if history != [] {
      BeforeIsUnset(history[..|history| - 1], target);
    }
  }

  /** `n` attempts at an abort or a rollback that each failed and were retried. */
  function Retried(s: Status, n: nat, target: Phase): Status {
    if n == 0 then s else Recorded(Recorded(Retried(s, n - 1, target), Failed), target)
  }

  /** `n` rounds of `Failed, target`. */
  function Rounds(n: nat, target: Phase): seq<Phase> {
    if n == 0 then [] else Rounds(n - 1, target) + [Failed, target]
  }

  lemma {:induction false} RoundsOnly(n: nat, target: Phase)
    ensures |Rounds(n, target)| == 2 * n && forall p <- Rounds(n, target) :: p in {Failed, target}
    ensures n > 0 ==> Rounds(n, target)[2 * n - 1] == target
  {
    if n > 0 {
      RoundsOnly(n - 1, target);
    }
  }

  lemma OneRetry(t: Status, before: seq<Phase>, target: Phase)
    requires target in {Aborting, RollingBack} && t.phase == target && t.history == Trim(before)
    ensures
      var u := Recorded(Recorded(t, Failed), target);
      u.phase == target && u.resumeFrom == target && u.history == Trim(before + [Failed] + [target])
  {
    hide Trim;
    TrimAppend(before, Failed);
    TrimAppend(before + [Failed], target);
  }

  lemma {:induction false} RetriedHistory(s: Status, n: nat, target: Phase)
    requires target in {Aborting, RollingBack} && s.phase == target && |s.history| <= MAX_HISTORY
    ensures Retried(s, n, target).phase == target
    ensures n > 0 ==> Retried(s, n, target).resumeFrom == target
    ensures Retried(s, n, target).history == Trim(s.history + Rounds(n, target))
  {
    hide Recorded;
    if n > 0 {
      RetriedHistory(s, n - 1, target);
      var before := s.history + Rounds(n - 1, target);
      OneRetry(Retried(s, n - 1, target), before, target);
      assert s.history + Rounds(n, target) == before + [Failed] + [target];
    } else {
      assert s.history + Rounds(0, target) == s.history;
    }
  }

  lemma TrimAppend(history: seq<Phase>, x: Phase)
    ensures Trim(Trim(history) + [x]) == Trim(history + [x])
  {
  }

  /**
   The cap is real: with `d` entries from the origin to the end of the history, a
   held origin survives exactly the retries that leave it among the newest 256.
   Past them the abort no longer resumes the workload.
   */
  lemma RetriesForgetTheOrigin(s: Status, n: nat, d: nat)
    requires s.phase == Aborting && |s.history| <= MAX_HISTORY && n > 0
    requires 0 < d <= |s.history|
    requires s.history[|s.history| - d] in {Pausing, Paused, FinalSyncing, FinalSynced}
    requires forall j | |s.history| - d < j < |s.history| :: s.history[j] in {Failed, Aborting}
    ensures NeedsResume(Retried(s, n, Aborting)) <==> d + 2 * n <= 256
  {
    hide LastOther, Before, Retried, Trim;
    RetriedScan(s, n, d, Aborting);
    RetriedHistory(s, n, Aborting);
  }

  /** The same for a rollback requested after the workload was resumed: past them it no longer pauses. */
  lemma RollbackRetriesForgetTheOrigin(s: Status, n: nat, d: nat)
    requires s.phase == RollingBack && |s.history| <= MAX_HISTORY && n > 0
    requires 0 < d <= |s.history| && s.history[|s.history| - d] in {Resuming, Completed}
    requires forall j | |s.history| - d < j < |s.history| :: s.history[j] in {Failed, RollingBack}
    ensures NeedsPause(Retried(s, n, RollingBack)) <==> d + 2 * n <= 256
  {
    hide LastOther, Before, Retried, Trim;
    RetriedScan(s, n, d, RollingBack);
    RetriedHistory(s, n, RollingBack);
  }

  /** What both scans find after the retries. */
  lemma RetriedScan(s: Status, n: nat, d: nat, target: Phase)
    requires target in {Aborting, RollingBack} && s.phase == target && |s.history| <= MAX_HISTORY && n > 0
    requires 0 < d <= |s.history| && s.history[|s.history| - d] !in {Unset, Failed, target}
    requires forall j | |s.history| - d < j < |s.history| :: s.history[j] in {Failed, target}
    ensures
      var found := if d + 2 * n <= MAX_HISTORY then s.history[|s.history| - d] else Unset;
      && LastOther(Retried(s, n, target).history, {Failed, target}) == found
      && Before(Retried(s, n, target).history, target) == found
  {
    RetriedHistory(s, n, target);
    RoundsOnly(n, target);
    var at := |s.history| - d;
    RoundsFollow(s.history, n, at, target);
    CappedScan(s.history + Rounds(n, target), at, target);
  }

  lemma RoundsFollow(history: seq<Phase>, n: nat, at: nat, target: Phase)
    requires at < |history|
    requires forall j | at < j < |history| :: history[j] in {Failed, target}
    requires |Rounds(n, target)| == 2 * n && forall p <- Rounds(n, target) :: p in {Failed, target}
    ensures forall j | at < j < |history + Rounds(n, target)| :: (history + Rounds(n, target))[j] in {Failed, target}
  {
    forall j | |history| <= j < |history + Rounds(n, target)|
      ensures (history + Rounds(n, target))[j] in {Failed, target}
    {
      assert (history + Rounds(n, target))[j] == Rounds(n, target)[j - |history|];
      assert Rounds(n, target)[j - |history|] in Rounds(n, target);
    }
  }

  lemma CappedScan(long: seq<Phase>, at: nat, target: Phase)
    requires at < |long| - 1 && long[at] !in {Failed, target} && long[|long| - 1] == target && target != Failed
    requires forall j | at < j < |long| :: long[j] in {Failed, target}
    ensures
      var found := if |long| - at <= MAX_HISTORY then long[at] else Unset;
      LastOther(Trim(long), {Failed, target}) == found && Before(Trim(long), target) == found
  {
    hide LastOther, Before;
    CappedLastOther(long, at, target);
    EndsInTarget(Trim(long), target);
  }

  lemma CappedLastOther(long: seq<Phase>, at: nat, target: Phase)
    requires at < |long| && long[at] !in {Failed, target}
    requires forall j | at < j < |long| :: long[j] in {Failed, target}
    ensures LastOther(Trim(long), {Failed, target}) == if |long| - at <= MAX_HISTORY then long[at] else Unset
  {
    hide LastOther;
    var kept := Trim(long);
    var dropped := |long| - |kept|;
    assert forall j | 0 <= j < |kept| :: kept[j] == long[j + dropped];
    if |long| - at <= MAX_HISTORY {
      LastOtherAt(kept, at - dropped, {Failed, target});
    } else {
      NoneOther(kept, {Failed, target});
    }
  }

  lemma EndsInTarget(history: seq<Phase>, target: Phase)
    requires history != [] && history[|history| - 1] == target
    ensures Before(history, target) == LastOther(history, {Failed, target})
  {
  }

  /** A workload paused for an abort that fails 128 times is left paused; after 127 it still resumes. */
  lemma ForgottenAfterManyRetries()
    ensures
      var paused := Status(Paused, Unset, NoReason, [Planned, Reserving, Reserved, Pausing, Paused]);
      var aborting := Recorded(paused, Aborting);
      NeedsResume(Retried(aborting, 127, Aborting)) && !NeedsResume(Retried(aborting, 128, Aborting))
  {
    var paused := Status(Paused, Unset, NoReason, [Planned, Reserving, Reserved, Pausing, Paused]);
    var aborting := Recorded(paused, Aborting);
    RetriesForgetTheOrigin(aborting, 127, 2);
    RetriesForgetTheOrigin(aborting, 128, 2);
  }

  /** A rollback of a completed migration that fails 128 times no longer pauses the workload; after 127 it does. */
  lemma RollbackForgottenAfterManyRetries()
    ensures
      var completed := Status(Completed, Unset, NoReason, [Planned, Resuming, Completed]);
      var rolling := Recorded(completed, RollingBack);
      NeedsPause(Retried(rolling, 127, RollingBack)) && !NeedsPause(Retried(rolling, 128, RollingBack))
  {
    var completed := Status(Completed, Unset, NoReason, [Planned, Resuming, Completed]);
    var rolling := Recorded(completed, RollingBack);
    RollbackRetriesForgetTheOrigin(rolling, 127, 2);
    RollbackRetriesForgetTheOrigin(rolling, 128, 2);
  }

  lemma {:induction false} LastOtherAt(history: seq<Phase>, k: nat, skip: set<Phase>)
    requires k < |history| && history[k] !in skip
    requires forall j | k < j < |history| :: history[j] in skip
    ensures LastOther(history, skip) == history[k]
  {
    if k < |history| - 1 {
      LastOtherAt(history[..|history| - 1], k, skip);
    }
  }

  lemma {:induction false} NoneOther(history: seq<Phase>, skip: set<Phase>)
    requires forall j | 0 <= j < |history| :: history[j] in skip
    ensures LastOther(history, skip) == Unset
  {
    if history != [] {
      NoneOther(history[..|history| - 1], skip);
    }
  }

  lemma {:induction false} LastOtherWidens(history: seq<Phase>, target: Phase)
    ensures LastOther(history, {Failed}) != target ==>
              LastOther(history, {Failed, target}) == LastOther(history, {Failed})
  {
    if history != [] && history[|history| - 1] == Failed {
      LastOtherWidens(history[..|history| - 1], target);
    }
  }
}
