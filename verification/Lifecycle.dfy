/** `codex_lifecycle.py`: the polling loop around one Codex process.

What each poll sees is a tick of an arbitrary stream: the monotonic clock, the root's exit
code, the final-message file, the processes still alive and what the two callbacks would
answer.  Only the sleep between polls is assumed of it. */
module Lifecycle {
  import opened Protocol

  datatype MarkerStatus = SaysSuccess | SaysFailed | SaysBlocked | SaysOther

  datatype Marker = Marker(status: MarkerStatus, rest: nat)

  datatype Fingerprint = Fingerprint(size: nat, modified: int, digest: nat)

  datatype Probe =
    | Missing
    | CaptureError
    | NoMarker(text: string)
    | Candidate(fingerprint: Fingerprint, message: string, marker: Marker)

  /** `active` is None where the process-tree query raises. */
  datatype Tick = Tick(now: real, exitCode: Option<int>, probe: Probe, active: Option<nat>, stop: bool, guardAllows: bool)

  datatype Config = Config(
    executionTimeout: real,
    graceTimeout: real,
    stableSeconds: real,
    pollInterval: real,
    guardInterval: real,
    hasStop: bool,
    hasGuard: bool)

  datatype Reason = FinalGraceExpired | RootExitedWithDescendants | OwnerStop | ExecutionTimeout | NetworkGuard

  datatype MarkerResult = Valid | Invalid | CaptureFailed | ExitedWithoutMarker | TerminatedWithoutMarker

  datatype RuntimeError = QueryFailed | StopRequested | TimedOut | GuardUnsafe | Unreadable

  datatype RunResult = RunResult(
    exitCode: int,
    finalMessage: string,
    marker: Option<Marker>,
    markerResult: MarkerResult,
    detected: bool,
    forcedCleanup: bool,
    forcedCleanupAfterFinal: bool,
    cleanupFailed: bool,
    timedOut: bool,
    networkInterrupted: bool,
    runtimeError: Option<RuntimeError>,
    reason: Option<Reason>)

  function Max(a: real, b: real): (m: real)
    ensures m >= a && m >= b && (m == a || m == b)
  {
    if a >= b then a else b
  }

  function ExecutionLimit(c: Config): real { Max(0.1, c.executionTimeout) }

  function GraceLimit(c: Config): real { Max(0.1, c.graceTimeout) }

  function SleepOf(c: Config): real { Max(0.02, c.pollInterval) }

  function Settle(c: Config): real { Max(0.25, c.stableSeconds * 2.0) }

  /** A sleep never returns early. */
  ghost predicate Clocked(ticks: nat -> Tick, c: Config, started: real) {
    && started <= ticks(0).now
    && forall n: nat :: Sleeps(ticks, c, n)
  }

  ghost predicate Sleeps(ticks: nat -> Tick, c: Config, n: nat) {
    ticks(n).now + SleepOf(c) <= ticks(n + 1).now
  }

  function Ceil(x: real): int {
    -((-x).Floor)
  }

  // ------------------------------------------------ reference: what each poll means

  /** One valid candidate with one fingerprint at every poll from i to k. */
  predicate Unchanged(ticks: nat -> Tick, i: nat, k: nat) {
    forall j: nat :: i <= j <= k ==>
      ticks(j).probe.Candidate? && ticks(k).probe.Candidate?
      && ticks(j).probe.fingerprint == ticks(k).probe.fingerprint
  }

  /** At poll k the candidate has been unchanged over at least the stability window. */
  ghost predicate StableAt(ticks: nat -> Tick, c: Config, k: nat) {
    exists i: nat :: i < k && Unchanged(ticks, i, k) && ticks(k).now - ticks(i).now >= c.stableSeconds
  }

  /** The first poll that accepts the marker is k. */
  ghost predicate DetectedAt(ticks: nat -> Tick, c: Config, k: nat) {
    StableAt(ticks, c, k) && forall j: nat :: j < k ==> !StableAt(ticks, c, j)
  }

  ghost predicate Undetected(ticks: nat -> Tick, c: Config, n: nat) {
    forall j: nat :: j <= n ==> !StableAt(ticks, c, j)
  }

  ghost predicate ExitedFirstAt(ticks: nat -> Tick, e: nat) {
    ticks(e).exitCode.Some? && forall j: nat :: j < e ==> ticks(j).exitCode.None?
  }

  /** The root has been gone for the settling time. */
  ghost predicate Settled(ticks: nat -> Tick, c: Config, n: nat) {
    ticks(n).exitCode.Some? &&
    exists e: nat :: e <= n && ExitedFirstAt(ticks, e) && ticks(n).now - ticks(e).now >= Settle(c)
  }

  predicate Drained(t: Tick) {
    t.active == Some(0)
  }

  ghost predicate GraceOver(ticks: nat -> Tick, c: Config, n: nat) {
    exists k: nat :: k <= n && DetectedAt(ticks, c, k) && ticks(n).now >= ticks(k).now + GraceLimit(c)
  }

  /** The reasons, guard aside, for which the loop must not go past poll n. */
  ghost predicate MustEnd(ticks: nat -> Tick, c: Config, started: real, n: nat) {
    if Undetected(ticks, c, n) then
      || Settled(ticks, c, n)
      || (c.hasStop && ticks(n).stop)
      || ticks(n).now >= started + ExecutionLimit(c)
    else Drained(ticks(n)) || GraceOver(ticks, c, n)
  }

  // ------------------------------------------------------------ number of polls

  lemma {:induction false} ClockAdvances(ticks: nat -> Tick, c: Config, started: real, i: nat, n: nat)
    requires Clocked(ticks, c, started) && i <= n
    ensures ticks(n).now - ticks(i).now >= (n - i) as real * SleepOf(c) >= 0.0
    decreases n
  {
    if i < n {
      ClockAdvances(ticks, c, started, i, n - 1);
      assert Sleeps(ticks, c, n - 1);
      OneMore(n - 1 - i, SleepOf(c));
    }
  }

  lemma ClockFrom(ticks: nat -> Tick, c: Config, started: real, n: nat)
    requires Clocked(ticks, c, started)
    ensures started <= ticks(n).now
  {
    ClockAdvances(ticks, c, started, 0, n);
  }

  lemma OneMore(n: nat, d: real)
    requires d > 0.0
    ensures (n + 1) as real * d == n as real * d + d >= 0.0
  {
  }

  lemma FewSteps(n: nat, d: real, limit: real)
    requires d > 0.0 && n as real * d < limit
    ensures n < Ceil(limit / d)
  {
    if limit / d <= n as real {
      assert limit == limit / d * d;
      assert limit / d * d <= n as real * d;
    }
  }

  /** How many polls fit before the deadline. */
  function Polls(limit: real, c: Config): int {
    Ceil(limit / SleepOf(c))
  }

  lemma BeforeDeadline(ticks: nat -> Tick, c: Config, started: real, i: nat, n: nat, from: real, limit: real)
    requires Clocked(ticks, c, started) && i <= n && from <= ticks(i).now
    requires ticks(n).now < from + limit
    ensures n - i < Polls(limit, c)
  {
    ClockAdvances(ticks, c, started, i, n);
    hide Clocked, SleepOf, Ceil;
    FewSteps(n - i, SleepOf(c), limit);
  }

  // ------------------------------------------------------------------- the loop

  /** Where the loop stopped: its last poll, and what it had decided. */
  datatype LoopEnd = LoopEnd(
    last: nat,
    detection: Option<nat>,
    reason: Option<Reason>,
    queryFailed: bool)

  /** With the run of equal candidates known, one subtraction decides. */
  lemma StableNow(ticks: nat -> Tick, c: Config, started: real, s: nat, n: nat)
    requires Clocked(ticks, c, started) && s <= n && Unchanged(ticks, s, n)
    requires s > 0 ==> !Unchanged(ticks, s - 1, n)
    ensures StableAt(ticks, c, n) <==> s < n && ticks(n).now - ticks(s).now >= c.stableSeconds
  {
    hide Clocked;
    if StableAt(ticks, c, n) {
      var i: nat :| i < n && Unchanged(ticks, i, n) && ticks(n).now - ticks(i).now >= c.stableSeconds;
      if i >= s {
        ClockAdvances(ticks, c, started, s, i);
      }
    }
  }

  lemma NotStable(ticks: nat -> Tick, c: Config, n: nat)
    requires !ticks(n).probe.Candidate?
    ensures !StableAt(ticks, c, n)
  {
  }

  /** A candidate that differs from the last one starts a new run; an equal one goes on. */
  lemma RunStarts(ticks: nat -> Tick, n: nat)
    requires ticks(n).probe.Candidate?
    requires n > 0 && ticks(n - 1).probe.Candidate? ==> ticks(n - 1).probe.fingerprint != ticks(n).probe.fingerprint
    ensures Unchanged(ticks, n, n) && (n > 0 ==> !Unchanged(ticks, n - 1, n))
  {
  }

  lemma RunGoesOn(ticks: nat -> Tick, s: nat, n: nat)
    requires n > 0 && s < n && Unchanged(ticks, s, n - 1) && (s > 0 ==> !Unchanged(ticks, s - 1, n - 1))
    requires ticks(n).probe.Candidate? && ticks(n).probe.fingerprint == ticks(n - 1).probe.fingerprint
    ensures Unchanged(ticks, s, n) && (s > 0 ==> !Unchanged(ticks, s - 1, n))
  {
    if s > 0 && Unchanged(ticks, s - 1, n) {
      assert Unchanged(ticks, s - 1, n - 1);
    }
  }

  lemma DetectionStep(ticks: nat -> Tick, c: Config, n: nat)
    requires n > 0 ==> Undetected(ticks, c, n - 1)
    ensures StableAt(ticks, c, n) ==> DetectedAt(ticks, c, n)
    ensures !StableAt(ticks, c, n) ==> Undetected(ticks, c, n)
  {
  }

  lemma MustEndDetected(ticks: nat -> Tick, c: Config, started: real, k: nat, n: nat)
    requires k <= n && DetectedAt(ticks, c, k)
    ensures !Undetected(ticks, c, n)
    ensures GraceOver(ticks, c, n) <==> ticks(n).now >= ticks(k).now + GraceLimit(c)
    ensures MustEnd(ticks, c, started, n) <==> Drained(ticks(n)) || ticks(n).now >= ticks(k).now + GraceLimit(c)
  {
    hide StableAt;
  }

  lemma SettledIff(ticks: nat -> Tick, c: Config, e: nat, n: nat)
    requires e <= n && ExitedFirstAt(ticks, e)
    ensures Settled(ticks, c, n) <==> ticks(n).exitCode.Some? && ticks(n).now - ticks(e).now >= Settle(c)
  {
  }

  lemma NeverExited(ticks: nat -> Tick, c: Config, n: nat)
    requires forall j: nat :: j <= n ==> ticks(j).exitCode.None?
    ensures !Settled(ticks, c, n)
  {
  }

  /** The tracking variables after the polls before n: the current run of equal candidates,
      and the poll that accepted the marker. */
  ghost predicate Tracked(ticks: nat -> Tick, c: Config, n: nat, candidate: Option<Fingerprint>, since: real,
                          runStart: nat, detectedAt: Option<nat>, graceDeadline: real)
  {
    && (match detectedAt
        case None => n > 0 ==> Undetected(ticks, c, n - 1)
        case Some(k) => k < n && DetectedAt(ticks, c, k) && graceDeadline == ticks(k).now + GraceLimit(c))
    && (match candidate
        case None => n > 0 ==> !ticks(n - 1).probe.Candidate?
        case Some(f) =>
          && n > 0 && runStart < n && Unchanged(ticks, runStart, n - 1)
          && ticks(n - 1).probe.Candidate? && ticks(n - 1).probe.fingerprint == f
          && (runStart > 0 ==> !Unchanged(ticks, runStart - 1, n - 1))
          && since == ticks(runStart).now)
  }

  class MarkerTracker {
    var stableCandidate: Option<Fingerprint>
    var stableSince: real
    var detectedAt: Option<nat>
    var graceDeadline: real
    ghost var runStart: nat

    constructor (ghost ticks: nat -> Tick, ghost c: Config)
      ensures Valid(ticks, c, 0) && stableCandidate == None && detectedAt == None
    {
      stableCandidate, stableSince, detectedAt, graceDeadline, runStart := None, 0.0, None, 0.0, 0;
    }

    ghost predicate Valid(ticks: nat -> Tick, c: Config, n: nat)
      reads this
    {
      Tracked(ticks, c, n, stableCandidate, stableSince, runStart, detectedAt, graceDeadline)
    }

    /** One poll's look at the final-message file. */
    method Observe(ticks: nat -> Tick, c: Config, started: real, n: nat)
      requires Clocked(ticks, c, started) && Valid(ticks, c, n)
      modifies this
      ensures Valid(ticks, c, n + 1)
      ensures detectedAt == old(detectedAt) || (old(detectedAt) == None && detectedAt == Some(n))
      ensures match detectedAt
              case None => Undetected(ticks, c, n)
              case Some(k) => k <= n && DetectedAt(ticks, c, k) && graceDeadline == ticks(k).now + GraceLimit(c)
    {
      hide Unchanged, StableAt, DetectedAt, Undetected, Clocked;
      var tick := ticks(n);
      var now := tick.now;
      if old(detectedAt).None? {
        DetectionStep(ticks, c, n);
      }
      if !tick.probe.Candidate? {
        NotStable(ticks, c, n);
        stableCandidate := None;
      } else {
        var fingerprint := tick.probe.fingerprint;
        if Some(fingerprint) != stableCandidate {
          RunStarts(ticks, n);
          stableCandidate, stableSince, runStart := Some(fingerprint), now, n;
          StableNow(ticks, c, started, runStart, n);
        } else {
          RunGoesOn(ticks, runStart, n);
          StableNow(ticks, c, started, runStart, n);
          if detectedAt.None? && now - stableSince >= c.stableSeconds {
            detectedAt := Some(n);
            graceDeadline := now + GraceLimit(c);
          }
        }
      }
    }
  }

  ghost predicate QueryFailedBy(ticks: nat -> Tick, n: nat) {
    exists j: nat :: j <= n && ticks(j).active.None?
  }

  lemma QueryFails(ticks: nat -> Tick, n: nat)
    ensures QueryFailedBy(ticks, n) <==> ticks(n).active.None? || (n > 0 && QueryFailedBy(ticks, n - 1))
  {
  }

  function GuardInterval(c: Config): real { Max(0.1, c.guardInterval) }

  /** When the guard is next asked, while no marker has been accepted: one interval after the
      start, then one interval after each poll that asked it. */
  function NextCheck(ticks: nat -> Tick, c: Config, started: real, n: nat): real {
    if n == 0 then started + GuardInterval(c)
    else
      var due := NextCheck(ticks, c, started, n - 1);
      if ticks(n - 1).now >= due then ticks(n - 1).now + GuardInterval(c) else due
  }

  predicate GuardAsked(ticks: nat -> Tick, c: Config, started: real, n: nat) {
    ticks(n).now >= NextCheck(ticks, c, started, n)
  }

  /** The guard refuses at a poll that nothing else ends. */
  ghost predicate GuardEnds(ticks: nat -> Tick, c: Config, started: real, n: nat) {
    && c.hasGuard && Undetected(ticks, c, n) && !MustEnd(ticks, c, started, n)
    && GuardAsked(ticks, c, started, n) && !ticks(n).guardAllows
  }

  ghost predicate NoGuardBefore(ticks: nat -> Tick, c: Config, started: real, n: nat) {
    forall j: nat :: j < n ==> !GuardEnds(ticks, c, started, j)
  }

  lemma {:induction false} NextCheckBounds(ticks: nat -> Tick, c: Config, started: real, n: nat)
    requires Clocked(ticks, c, started)
    ensures started + GuardInterval(c) <= NextCheck(ticks, c, started, n) <= ticks(n).now + GuardInterval(c)
    decreases n
  {
    hide Clocked, SleepOf;
    ClockFrom(ticks, c, started, n);
    if n > 0 {
      NextCheckBounds(ticks, c, started, n - 1);
      ClockFrom(ticks, c, started, n - 1);
      ClockAdvances(ticks, c, started, n - 1, n);
    }
  }

  /** In any stretch of polls a full interval long the guard is asked. */
  lemma {:induction false} GuardIsAsked(ticks: nat -> Tick, c: Config, started: real, i: nat, n: nat) returns (j: nat)
    requires Clocked(ticks, c, started) && i < n && ticks(n).now >= ticks(i).now + GuardInterval(c)
    ensures i < j <= n && GuardAsked(ticks, c, started, j)
    decreases n - i
  {
    hide Clocked, GuardInterval;
    NextCheckBounds(ticks, c, started, i);
    j := i + 1;
    while !GuardAsked(ticks, c, started, j)
      invariant i < j <= n && NextCheck(ticks, c, started, j) <= ticks(i).now + GuardInterval(c)
      decreases n - j
    {
      j := j + 1;
    }
  }

  /** And two askings are a full interval apart. */
  lemma {:induction false} AskedApart(ticks: nat -> Tick, c: Config, started: real, i: nat, j: nat)
    requires Clocked(ticks, c, started) && i < j
    requires GuardAsked(ticks, c, started, i) && GuardAsked(ticks, c, started, j)
    ensures ticks(j).now >= ticks(i).now + GuardInterval(c)
  {
    hide Clocked;
    var n := i + 1;
    while n < j
      invariant i < n <= j && NextCheck(ticks, c, started, n) >= ticks(i).now + GuardInterval(c)
    {
      ClockAdvances(ticks, c, started, i, n);
      n := n + 1;
    }
  }

  ghost predicate NoneEndedBefore(ticks: nat -> Tick, c: Config, started: real, n: nat) {
    forall j: nat :: j < n ==> !MustEnd(ticks, c, started, j)
  }

  /** What the end of the loop means, reason by reason. */
  ghost predicate Explained(ticks: nat -> Tick, c: Config, started: real, end: LoopEnd) {
    var t := ticks(end.last);
    match end.reason
    case None => Drained(t) && (end.detection.None? ==> Settled(ticks, c, end.last))
    case Some(FinalGraceExpired) => end.detection.Some? && !Drained(t) && GraceOver(ticks, c, end.last)
    case Some(RootExitedWithDescendants) => end.detection.None? && !Drained(t) && Settled(ticks, c, end.last)
    case Some(OwnerStop) => end.detection.None? && !Settled(ticks, c, end.last) && c.hasStop && t.stop
    case Some(ExecutionTimeout) =>
      && end.detection.None? && !Settled(ticks, c, end.last) && !(c.hasStop && t.stop)
      && t.now >= started + ExecutionLimit(c)
    case Some(NetworkGuard) =>
      end.detection.None? && GuardEnds(ticks, c, started, end.last) && t.now >= started + Max(0.1, c.guardInterval)
  }

  /** What is known of the root's exit after the polls before n. */
  ghost predicate ExitSeen(ticks: nat -> Tick, n: nat, rootExitSeenAt: Option<real>, exitedAt: nat) {
    match rootExitSeenAt
    case None => forall j: nat :: j < n ==> ticks(j).exitCode.None?
    case Some(t) => exitedAt < n && ExitedFirstAt(ticks, exitedAt) && t == ticks(exitedAt).now
  }

  lemma ExitStep(ticks: nat -> Tick, n: nat, seenAt: Option<real>, exitedAt: nat)
    requires ExitSeen(ticks, n, seenAt, exitedAt)
    ensures ticks(n).exitCode.Some? && seenAt.None? ==> ExitSeen(ticks, n + 1, Some(ticks(n).now), n)
    ensures !(ticks(n).exitCode.Some? && seenAt.None?) ==> ExitSeen(ticks, n + 1, seenAt, exitedAt)
  {
  }

  /** The exits of one poll, in the order they are tried. */
  method CheckExits(ticks: nat -> Tick, c: Config, started: real, n: nat, detectedAt: Option<nat>, graceDeadline: real,
                    rootExitSeenAt: Option<real>, nextGuardCheck: real, ghost exitedAt: nat)
    returns (ended: bool, reason: Option<Reason>, nextCheck: real)
    requires match detectedAt
             case None => Undetected(ticks, c, n)
             case Some(k) => k <= n && DetectedAt(ticks, c, k) && graceDeadline == ticks(k).now + GraceLimit(c)
    requires ExitSeen(ticks, n + 1, rootExitSeenAt, exitedAt)
    requires started <= ticks(n).now && nextGuardCheck >= started + Max(0.1, c.guardInterval)
    requires detectedAt.None? && c.hasGuard ==> nextGuardCheck == NextCheck(ticks, c, started, n)
    ensures nextCheck >= started + Max(0.1, c.guardInterval)
    ensures !ended && detectedAt.None? && c.hasGuard ==> nextCheck == NextCheck(ticks, c, started, n + 1)
    ensures !ended ==> !GuardEnds(ticks, c, started, n)
    ensures ended ==> MustEnd(ticks, c, started, n) || reason == Some(NetworkGuard)
    ensures ended ==> forall q :: Explained(ticks, c, started, LoopEnd(n, detectedAt, reason, q))
    ensures ended ==> (reason == Some(NetworkGuard) <==> GuardEnds(ticks, c, started, n))
    ensures !ended ==> !MustEnd(ticks, c, started, n)
    ensures !ended && detectedAt.None? ==> ticks(n).now < started + ExecutionLimit(c)
    ensures !ended && detectedAt.Some? ==> ticks(n).now < ticks(detectedAt.value).now + GraceLimit(c)
  {
    var tick := ticks(n);
    var now := tick.now;
    var active := if tick.active.Some? then tick.active.value else 1;
    nextCheck := nextGuardCheck;
    PollDecides(ticks, c, started, n, detectedAt, rootExitSeenAt, exitedAt);
    hide DetectedAt, Undetected, MustEnd, Settled, GraceOver, ExitedFirstAt, GraceLimit, ExecutionLimit, Settle;
    if detectedAt.Some? && active == 0 { return true, None, nextCheck; }
    if detectedAt.Some? && now >= graceDeadline { return true, Some(FinalGraceExpired), nextCheck; }
    if detectedAt.None? && tick.exitCode.Some? && now - rootExitSeenAt.value >= Settle(c) {
      return true, if active > 0 then Some(RootExitedWithDescendants) else None, nextCheck;
    }
    if detectedAt.None? && c.hasStop && tick.stop { return true, Some(OwnerStop), nextCheck; }
    if now >= started + ExecutionLimit(c) && detectedAt.None? { return true, Some(ExecutionTimeout), nextCheck; }
    if detectedAt.None? && c.hasGuard && now >= nextGuardCheck {
      nextCheck := now + Max(0.1, c.guardInterval);
      if !tick.guardAllows { return true, Some(NetworkGuard), nextCheck; }
    }
    return false, None, nextCheck;
  }

  /** Every poll from i to k found the file that poll k found. */
  predicate StillFrom(ticks: nat -> Tick, i: nat, k: nat) {
    && ticks(k).probe.Candidate?
    && forall j: nat :: i <= j <= k ==>
         ticks(j).probe.Candidate? && ticks(j).probe.fingerprint == ticks(k).probe.fingerprint
  }

  /** The file that poll k found had been the same over at least the stability window. */
  ghost predicate KeptStill(ticks: nat -> Tick, c: Config, k: nat) {
    exists i: nat :: i < k && ticks(k).now - ticks(i).now >= c.stableSeconds && StillFrom(ticks, i, k)
  }

  lemma DetectedIsStill(ticks: nat -> Tick, c: Config, k: nat)
    requires DetectedAt(ticks, c, k)
    ensures ticks(k).probe.Candidate? && KeptStill(ticks, c, k)
  {
    var i: nat :| i < k && Unchanged(ticks, i, k) && ticks(k).now - ticks(i).now >= c.stableSeconds;
    assert StillFrom(ticks, i, k);
  }

  method RunLoop(ticks: nat -> Tick, c: Config, started: real) returns (end: LoopEnd)
    requires Clocked(ticks, c, started)
    ensures end.last + 1 <= Polls(ExecutionLimit(c), c) + Polls(GraceLimit(c), c) + 1
    // the marker is accepted at the first poll with a full stability window behind it
    ensures match end.detection
            case None => Undetected(ticks, c, end.last)
            case Some(k) => k <= end.last && DetectedAt(ticks, c, k)
    ensures end.detection.Some? ==> KeptStill(ticks, c, end.detection.value)
    // the loop ends at the first poll that must end it, unless the guard ends it earlier
    ensures NoneEndedBefore(ticks, c, started, end.last) && NoGuardBefore(ticks, c, started, end.last)
    ensures MustEnd(ticks, c, started, end.last) || end.reason == Some(NetworkGuard)
    ensures end.reason == Some(NetworkGuard) <==> GuardEnds(ticks, c, started, end.last)
    ensures Explained(ticks, c, started, end)
    ensures end.queryFailed <==> QueryFailedBy(ticks, end.last)
  {
    var n: nat := 0;
    var tracker := new MarkerTracker(ticks, c);
    var rootExitSeenAt: Option<real> := None;
    var nextGuardCheck := started + Max(0.1, c.guardInterval);
    var queryFailed := false;
    ghost var exitedAt: nat := 0;
    ghost var bound := Polls(ExecutionLimit(c), c) + Polls(GraceLimit(c), c) + 1;
    PollsPositive(ExecutionLimit(c), c);
    PollsPositive(GraceLimit(c), c);
    hide Tracked, DetectedAt, Undetected, MustEnd, Settled, GraceOver, ExitedFirstAt, ExitSeen, Clocked, Polls, Unchanged,
         StableAt, Max, SleepOf, GraceLimit, ExecutionLimit, Settle, Explained, QueryFailedBy, KeptStill, GuardEnds, NextCheck,
         NoGuardBefore, NoneEndedBefore;
    while true
      invariant fresh(tracker) && tracker.Valid(ticks, c, n)
      invariant NoneEndedBefore(ticks, c, started, n) && NoGuardBefore(ticks, c, started, n)
      invariant tracker.detectedAt.None? && c.hasGuard ==> nextGuardCheck == NextCheck(ticks, c, started, n)
      invariant nextGuardCheck >= started + Max(0.1, c.guardInterval)
      invariant queryFailed <==> n > 0 && QueryFailedBy(ticks, n - 1)
      invariant ExitSeen(ticks, n, rootExitSeenAt, exitedAt)
      invariant match tracker.detectedAt
                case None => n <= Polls(ExecutionLimit(c), c)
                case Some(k) => k <= Polls(ExecutionLimit(c), c) && n <= k + Polls(GraceLimit(c), c)
      decreases bound - n
    {
      var tick := ticks(n);
      var now := tick.now;
      ClockFrom(ticks, c, started, n);
      ExitStep(ticks, n, rootExitSeenAt, exitedAt);
      if tick.exitCode.Some? && rootExitSeenAt.None? {
        rootExitSeenAt, exitedAt := Some(now), n;
      }
      tracker.Observe(ticks, c, started, n);
      var detectedAt := tracker.detectedAt;
      QueryFails(ticks, n);
      queryFailed := queryFailed || tick.active.None?;
      var ended, reason;
      ended, reason, nextGuardCheck := CheckExits(ticks, c, started, n, detectedAt, tracker.graceDeadline,
                                                  rootExitSeenAt, nextGuardCheck, exitedAt);
      if ended {
        if detectedAt.Some? {
          DetectedIsStill(ticks, c, detectedAt.value);
        }
        return LoopEnd(n, detectedAt, reason, queryFailed);
      }
      StillInTime(ticks, c, started, n, detectedAt);
      n := n + 1;
    }
  }

  lemma PollsPositive(limit: real, c: Config)
    requires limit > 0.0
    ensures Polls(limit, c) >= 1
  {
    FewSteps(0, SleepOf(c), limit);
  }

  /** What the loop's variables say about this poll. */
  lemma PollDecides(ticks: nat -> Tick, c: Config, started: real, n: nat, detectedAt: Option<nat>,
                    seenAt: Option<real>, exitedAt: nat)
    requires match detectedAt
             case None => Undetected(ticks, c, n)
             case Some(k) => k <= n && DetectedAt(ticks, c, k)
    requires match seenAt
             case None => forall j: nat :: j <= n ==> ticks(j).exitCode.None?
             case Some(t) => exitedAt <= n && ExitedFirstAt(ticks, exitedAt) && t == ticks(exitedAt).now
    ensures Settled(ticks, c, n) <==> ticks(n).exitCode.Some? && ticks(n).now - seenAt.value >= Settle(c)
    ensures match detectedAt
            case None =>
              MustEnd(ticks, c, started, n) <==>
              || Settled(ticks, c, n) || (c.hasStop && ticks(n).stop) || ticks(n).now >= started + ExecutionLimit(c)
            case Some(k) =>
              && (GraceOver(ticks, c, n) <==> ticks(n).now >= ticks(k).now + GraceLimit(c))
              && (MustEnd(ticks, c, started, n) <==> Drained(ticks(n)) || GraceOver(ticks, c, n))
  {
    match seenAt {
      case None => NeverExited(ticks, c, n);
      case Some(_) => SettledIff(ticks, c, exitedAt, n);
    }
    match detectedAt {
      case None =>
      case Some(k) => MustEndDetected(ticks, c, started, k, n);
    }
  }

  lemma StillInTime(ticks: nat -> Tick, c: Config, started: real, n: nat, detectedAt: Option<nat>)
    requires Clocked(ticks, c, started)
    requires detectedAt.None? ==> ticks(n).now < started + ExecutionLimit(c)
    requires detectedAt.Some? ==> detectedAt.value <= n && ticks(n).now < ticks(detectedAt.value).now + GraceLimit(c)
    ensures detectedAt.None? ==> n < Polls(ExecutionLimit(c), c)
    ensures detectedAt.Some? ==> n - detectedAt.value < Polls(GraceLimit(c), c)
  {
    if detectedAt.None? {
      BeforeDeadline(ticks, c, started, 0, n, started, ExecutionLimit(c));
    } else {
      BeforeDeadline(ticks, c, started, detectedAt.value, n, ticks(detectedAt.value).now, GraceLimit(c));
    }
  }

  // ---------------------------------------------------------- bounded cleanup

  datatype Drain = Drain(now: real, exited: bool, active: Option<nat>)

  ghost predicate DrainClocked(polls: nat -> Drain, started: real) {
    started <= polls(0).now && forall n: nat :: DrainSleeps(polls, n)
  }

  ghost predicate DrainSleeps(polls: nat -> Drain, n: nat) {
    polls(n).now + 0.05 <= polls(n + 1).now
  }

  /** The tree is seen empty, with the root's exit code, before the deadline and before any
      query fails. */
  ghost predicate DrainedAt(polls: nat -> Drain, deadline: real, k: nat) {
    && polls(k).exited && polls(k).active == Some(0)
    && forall j: nat :: j <= k ==> polls(j).now < deadline && polls(j).active.Some?
  }

  ghost predicate DrainsInTime(polls: nat -> Drain, deadline: real) {
    exists k: nat :: DrainedAt(polls, deadline, k)
  }

  /** `_bounded_cleanup`: whether it reports no error, and after how many polls. */
  method BoundedCleanup(polls: nat -> Drain, started: real, timeout: real, terminateRaises: bool)
    returns (clean: bool, count: nat)
    requires DrainClocked(polls, started)
    ensures clean <==> !terminateRaises && DrainsInTime(polls, started + Max(0.1, timeout))
    ensures (count - 1) as real * 0.05 <= Max(0.1, timeout)
  {
    var deadline := started + Max(0.1, timeout);
    var n: nat := 0;
    while polls(n).now < deadline
      invariant polls(n).now >= started + n as real * 0.05
      invariant n > 0 ==> (n - 1) as real * 0.05 < Max(0.1, timeout)
      invariant forall j: nat :: j < n ==> polls(j).now < deadline && polls(j).active.Some? && !DrainedAt(polls, deadline, j)
      decreases Max(0.1, timeout) * 20.0 - n as real
    {
      var poll := polls(n);
      if poll.active == Some(0) && poll.exited {
        assert DrainedAt(polls, deadline, n);
        return !terminateRaises, n + 1;
      }
      if poll.active.None? {
        assert forall k: nat :: k >= n ==> !DrainedAt(polls, deadline, k);
        return false, n + 1;
      }
      assert DrainSleeps(polls, n);
      n := n + 1;
    }
    assert forall k: nat :: k >= n ==> !DrainedAt(polls, deadline, k);
    return false, n;
  }

  // ------------------------------------------------------------ the whole run

  /** The marker a run is answerable for: the one accepted in the loop, else the final file's. */
  ghost function AnsweredMarker(ticks: nat -> Tick, end: LoopEnd, finalProbe: Probe): Option<Marker> {
    match end.detection
    case Some(k) => if ticks(k).probe.Candidate? then Some(ticks(k).probe.marker) else None
    case None => if finalProbe.Candidate? then Some(finalProbe.marker) else None
  }

  function ExecutionOutcome(r: RunResult): Outcome {
    if r.reason == Some(OwnerStop) || r.marker.None? then FailedRun
    else match r.marker.value.status
      case SaysSuccess => Success
      case SaysFailed => FailedRun
      case SaysBlocked => Blocked
      case SaysOther => FailedRun
  }

  /** The last look at the final file: an owner stop discards everything, an accepted marker
      stands, and otherwise the file decides. */
  method LastLook(reason: Option<Reason>, finalProbe: Probe, marker: Option<Marker>, message: string, result: MarkerResult,
                  detected: bool, error: Option<RuntimeError>)
    returns (marker': Option<Marker>, message': string, result': MarkerResult, detected': bool, error': Option<RuntimeError>)
    ensures reason == Some(OwnerStop) ==>
      marker' == None && message' == "" && result' == TerminatedWithoutMarker && detected' == detected && error' == error
    ensures reason != Some(OwnerStop) && marker.Some? ==>
      marker' == marker && message' == message && result' == result && detected' == detected && error' == error
    ensures reason != Some(OwnerStop) && marker.None? ==>
      && (marker'.Some? <==> finalProbe.Candidate?) && (detected' <==> detected || finalProbe.Candidate?)
      && match finalProbe
         case Candidate(_, text, m) => marker' == Some(m) && message' == text && result' == Valid && error' == error
         case CaptureError => message' == message && result' == CaptureFailed && error' == Some(Unreadable)
         case NoMarker(text) => message' == text && result' == Invalid && error' == error
         case Missing =>
           && message' == message && error' == error
           && result' == if reason == Some(ExecutionTimeout) || reason == Some(NetworkGuard)
                         then TerminatedWithoutMarker else ExitedWithoutMarker
  {
    marker', message', result', detected', error' := marker, message, result, detected, error;
    if reason == Some(OwnerStop) {
      marker', message', result' := None, "", TerminatedWithoutMarker;
    } else if marker.None? {
      match finalProbe {
        case Candidate(_, text, m) =>
          marker', message', result', detected' := Some(m), text, Valid, true;
        case CaptureError =>
          result', error' := CaptureFailed, Some(Unreadable);
        case NoMarker(text) =>
          result', message' := Invalid, text;
        case Missing =>
          result' := if reason == Some(ExecutionTimeout) || reason == Some(NetworkGuard)
                     then TerminatedWithoutMarker else ExitedWithoutMarker;
      }
    }
  }

  /** Everything after the loop and its cleanup. */
  method Conclude(reason: Option<Reason>, accepted: Option<Probe>, queryFailed: bool, clean: bool, finalProbe: Probe,
                  finalExit: Option<int>)
    returns (r: RunResult)
    requires accepted.Some? ==> accepted.value.Candidate?
    ensures r.reason == reason && (r.marker.Some? <==> r.markerResult == Valid)
    ensures r.reason == Some(OwnerStop) ==>
      r.marker.None? && r.finalMessage == "" && r.markerResult == TerminatedWithoutMarker
    ensures r.reason != Some(OwnerStop) && accepted.Some? ==>
      r.marker == Some(accepted.value.marker) && r.finalMessage == accepted.value.message
    ensures r.reason != Some(OwnerStop) && accepted.None? ==>
      if finalProbe.Candidate? then r.marker == Some(finalProbe.marker) && r.finalMessage == finalProbe.message
      else r.marker.None?
    ensures r.detected <==> accepted.Some? || (r.reason != Some(OwnerStop) && finalProbe.Candidate?)
    ensures r.timedOut <==> r.reason == Some(ExecutionTimeout)
    ensures r.networkInterrupted <==> r.reason == Some(NetworkGuard)
    ensures r.forcedCleanupAfterFinal <==> r.reason == Some(FinalGraceExpired)
    ensures (r.forcedCleanup <==> r.reason.Some?) && (r.cleanupFailed <==> r.forcedCleanup && !clean)
    ensures r.reason != Some(OwnerStop) && r.marker.None? ==>
      match finalProbe
      case CaptureError => r.markerResult == CaptureFailed && r.finalMessage == "" && r.runtimeError == Some(Unreadable)
      case NoMarker(text) => r.markerResult == Invalid && r.finalMessage == text
      case Missing =>
        && r.finalMessage == ""
        && r.markerResult == if r.timedOut || r.networkInterrupted then TerminatedWithoutMarker else ExitedWithoutMarker
      case Candidate(_, _, _) => false
    ensures r.reason == Some(OwnerStop) ==> r.runtimeError == Some(StopRequested)
    ensures r.timedOut && finalProbe != CaptureError ==> r.runtimeError == Some(TimedOut)
    ensures r.networkInterrupted && finalProbe != CaptureError ==> r.runtimeError == Some(GuardUnsafe)
    ensures !r.timedOut && !r.networkInterrupted && r.reason != Some(OwnerStop) && !(accepted.None? && finalProbe == CaptureError) ==>
      r.runtimeError == if queryFailed then Some(QueryFailed) else None
    ensures r.exitCode == if finalExit.Some? then finalExit.value else 125
    ensures r.marker.None? ==> ExecutionOutcome(r) == FailedRun
    ensures r.marker.Some? ==>
      && (ExecutionOutcome(r) == Success <==> r.marker.value.status == SaysSuccess)
      && (ExecutionOutcome(r) == Blocked <==> r.marker.value.status == SaysBlocked)
      && (ExecutionOutcome(r) == FailedRun <==> r.marker.value.status != SaysSuccess && r.marker.value.status != SaysBlocked)
  {
    var marker: Option<Marker> := None;
    var finalMessage := "";
    var markerResult := ExitedWithoutMarker;
    if accepted.Some? {
      marker, finalMessage, markerResult := Some(accepted.value.marker), accepted.value.message, Valid;
    }
    var runtimeError := if queryFailed then Some(QueryFailed) else None;
    match reason {
      case Some(OwnerStop) => runtimeError := Some(StopRequested);
      case Some(ExecutionTimeout) => runtimeError := Some(TimedOut);
      case Some(NetworkGuard) => runtimeError := Some(GuardUnsafe);
      case _ =>
    }
    var detected;
    marker, finalMessage, markerResult, detected, runtimeError :=
      LastLook(reason, finalProbe, marker, finalMessage, markerResult, accepted.Some?, runtimeError);
    r := RunResult(if finalExit.Some? then finalExit.value else 125, finalMessage, marker, markerResult, detected,
                   reason.Some?, reason == Some(FinalGraceExpired), reason.Some? && !clean,
                   reason == Some(ExecutionTimeout), reason == Some(NetworkGuard), runtimeError, reason);
  }

  /** Some poll of the loop read this marker and message from a file that had kept still for the
      whole stability window. */
  ghost predicate Accepted(ticks: nat -> Tick, c: Config, last: nat, marker: Marker, message: string) {
    exists k: nat ::
      k <= last && KeptStill(ticks, c, k) && ticks(k).probe.Candidate?
      && marker == ticks(k).probe.marker && message == ticks(k).probe.message
  }

  lemma AcceptedAt(ticks: nat -> Tick, c: Config, k: nat, last: nat)
    requires DetectedAt(ticks, c, k) && k <= last
    ensures ticks(k).probe.Candidate? && !Undetected(ticks, c, last)
    ensures Accepted(ticks, c, last, ticks(k).probe.marker, ticks(k).probe.message)
  {
    DetectedIsStill(ticks, c, k);
    hide DetectedAt, KeptStill;
  }

  /** `run_codex_process`, after launch: the loop, the cleanup, the last look at the file. */
  method RunCodexProcess(ticks: nat -> Tick, c: Config, started: real, drains: nat -> Drain, cleanupStarted: real,
                         cleanupTimeout: real, terminateRaises: bool, finalProbe: Probe, finalExit: Option<int>)
    returns (r: RunResult, ghost end: LoopEnd)
    requires Clocked(ticks, c, started) && DrainClocked(drains, cleanupStarted)
    ensures end.last + 1 <= Polls(ExecutionLimit(c), c) + Polls(GraceLimit(c), c) + 1
    ensures Explained(ticks, c, started, end)
    ensures NoneEndedBefore(ticks, c, started, end.last) && NoGuardBefore(ticks, c, started, end.last)
    ensures r.reason == end.reason
    ensures r.marker.Some? <==> r.markerResult == Valid
    ensures r.reason == Some(OwnerStop) ==>
      r.marker.None? && r.finalMessage == "" && r.markerResult == TerminatedWithoutMarker
    ensures r.reason != Some(OwnerStop) ==> r.marker == AnsweredMarker(ticks, end, finalProbe)
    ensures r.detected <==> end.detection.Some? || (r.reason != Some(OwnerStop) && finalProbe.Candidate?)
    // the flags are exclusive, and each is its termination reason
    ensures r.timedOut <==> r.reason == Some(ExecutionTimeout)
    ensures r.networkInterrupted <==> r.reason == Some(NetworkGuard)
    ensures r.forcedCleanupAfterFinal <==> r.reason == Some(FinalGraceExpired)
    ensures r.forcedCleanup <==> r.reason.Some?
    // a forced cleanup failed exactly when it raised or the tree was not seen drained in time
    ensures r.cleanupFailed <==>
      r.forcedCleanup && (terminateRaises || !DrainsInTime(drains, cleanupStarted + Max(0.1, cleanupTimeout)))
    // what is reported where there is no marker
    ensures r.reason != Some(OwnerStop) && r.marker.None? ==>
      match finalProbe
      case CaptureError => r.markerResult == CaptureFailed && r.finalMessage == "" && r.runtimeError == Some(Unreadable)
      case NoMarker(text) => r.markerResult == Invalid && r.finalMessage == text
      case Missing =>
        && r.finalMessage == ""
        && r.markerResult == if r.timedOut || r.networkInterrupted then TerminatedWithoutMarker else ExitedWithoutMarker
      case Candidate(_, _, _) => false
    ensures r.reason == Some(OwnerStop) ==> r.runtimeError == Some(StopRequested)
    ensures r.timedOut && finalProbe != CaptureError ==> r.runtimeError == Some(TimedOut)
    ensures r.networkInterrupted && finalProbe != CaptureError ==> r.runtimeError == Some(GuardUnsafe)
    // and with none of these reasons a failed query of the process tree is what is left to report
    ensures !r.timedOut && !r.networkInterrupted && r.reason != Some(OwnerStop)
            && !(Undetected(ticks, c, end.last) && finalProbe == CaptureError) ==>
      r.runtimeError == if QueryFailedBy(ticks, end.last) then Some(QueryFailed) else None
    ensures r.exitCode == if finalExit.Some? then finalExit.value else 125
    // the outcome follows the marker, and is a failure without one
    ensures r.marker.None? ==> ExecutionOutcome(r) == FailedRun
    ensures r.marker.Some? ==>
      (ExecutionOutcome(r) == Blocked <==> r.marker.value.status == SaysBlocked)
      && (ExecutionOutcome(r) == FailedRun <==> r.marker.value.status != SaysSuccess && r.marker.value.status != SaysBlocked)
    // success needs a SUCCESS marker that is either stable in the loop or the final file's
    ensures ExecutionOutcome(r) == Success <==>
      r.reason != Some(OwnerStop) && AnsweredMarker(ticks, end, finalProbe).Some?
      && AnsweredMarker(ticks, end, finalProbe).value.status == SaysSuccess
    ensures match end.detection
            case None => Undetected(ticks, c, end.last)
            case Some(k) => k <= end.last && DetectedAt(ticks, c, k)
    // a returned marker was read from a file that had kept still for the whole window, or else
    // from the final file, and then no file had kept still at any poll
    ensures r.marker.Some? ==>
      || Accepted(ticks, c, end.last, r.marker.value, r.finalMessage)
      || (Undetected(ticks, c, end.last) && finalProbe.Candidate?
          && r.marker == Some(finalProbe.marker) && r.finalMessage == finalProbe.message)
    // and without an owner stop one of the two is enough to return a marker
    ensures r.reason != Some(OwnerStop) ==>
      (r.marker.Some? <==> !Undetected(ticks, c, end.last) || finalProbe.Candidate?)
    // a finished file counts, whatever ended the loop, unless the owner did or another was accepted
    ensures r.reason != Some(OwnerStop) && finalProbe.Candidate?
            && (forall j: nat :: j <= end.last && ticks(j).probe.Candidate? ==> ticks(j).probe.marker == finalProbe.marker) ==>
      r.marker == Some(finalProbe.marker)
  {
    var stop := RunLoop(ticks, c, started);
    end := stop;
    if end.detection.Some? {
      AcceptedAt(ticks, c, end.detection.value, end.last);
    }
    hide Explained, NoneEndedBefore, NoGuardBefore, QueryFailedBy, DetectedAt, Undetected, Polls, Clocked, KeptStill, Accepted, DrainsInTime, DrainClocked,
         ExecutionOutcome;
    var clean := true;
    if stop.reason.Some? {
      var drained, _ := BoundedCleanup(drains, cleanupStarted, cleanupTimeout, terminateRaises);
      clean := drained;
    }
    var accepted := if stop.detection.Some? then Some(ticks(stop.detection.value).probe) else None;
    r := Conclude(stop.reason, accepted, stop.queryFailed, clean, finalProbe, finalExit);
  }
}
