/** A run whose outcome is uncertain: the project waits under RECOVERY_REQUIRED, and only an
explicit resolution, bound to the command as it was written, brings it back. */
module Recovery {
  import opened Protocol
  import opened Operations
  import opened Runs
  import opened Safety

  /** The current command is the one that commit `k` gave a lease to. */
  ghost predicate ClaimedBy(h: seq<Project>, moves: seq<Move>, k: nat, i: nat)
    requires |h| == |moves| + 1
  {
    && k < i < |h| && moves[k].Act? && moves[k].op.Claims()
    && h[i].state.latestCommand == h[k + 1].state.latestCommand
  }

  // --------------------------------------------------- what a claim fixes

  /** The header, where it can be read, is valid, names its command and rests on the report
      that was the latest one. */
  predicate WrittenFor(p: Project, c: int, report: int) {
    && c in p.commands
    && (p.commands[c].header.Some? ==>
          && ValidMeta(p.commands[c].header.value)
          && p.commands[c].header.value.commandId == Present(c)
          && p.commands[c].header.value.basedOnReport == Present(report))
  }

  lemma ClaimStepWritten(op: Op, p: Project, q: Project)
    requires Inv(p) && Lands(op, p, q) && op.Claims()
    requires op.snap.state == p.state && SubMap(op.snap.commands, p.commands)
    ensures WrittenFor(q, q.state.latestCommand, q.state.latestReport)
    ensures q.state.status == CodexRunning && q.state.latestReport < q.state.latestCommand
  {
  }

  lemma ClaimedIsWritten(h: seq<Project>, moves: seq<Move>, k: nat, i: nat)
    requires Run(h, moves) && ClaimedBy(h, moves, k, i)
    ensures WrittenFor(h[i], h[i].state.latestCommand, h[k + 1].state.latestReport)
    ensures h[k + 1].state.status == CodexRunning && h[k + 1].state.latestReport < h[k + 1].state.latestCommand
  {
    LandedAt(h, moves, k);
    EvidenceIsFresh(h, moves, k);
    hide Inv, Lands, WrittenFor;
    ClaimStepWritten(moves[k].op, h[k], h[k + 1]);
    AppendOnly(h, moves, k + 1, i);
    WrittenStays(h[k + 1], h[i], h[i].state.latestCommand, h[k + 1].state.latestReport);
  }

  lemma WrittenStays(p: Project, q: Project, c: int, report: int)
    requires WrittenFor(p, c, report) && SubMap(p.commands, q.commands)
    ensures WrittenFor(q, c, report)
  {
  }

  /** Losing a lease also clears the worker's process id. */
  predicate NoStrayWorker(s: State) {
    s.status == CodexRunning || !s.workerPid
  }

  lemma LeaseLossClears(op: Op, p: Project, q: Project)
    requires Inv(p) && Lands(op, p, q) && q.state.latestCommand == p.state.latestCommand
    requires NoStrayWorker(p.state)
    ensures NoStrayWorker(q.state)
  {
  }

  lemma {:induction false} NoWorkerLeft(h: seq<Project>, moves: seq<Move>, k: nat, i: nat)
    requires Run(h, moves) && ClaimedBy(h, moves, k, i)
    ensures NoStrayWorker(h[i].state)
    decreases i
  {
    if i == k + 1 {
      ClaimedIsWritten(h, moves, k, i);
    } else {
      AppendOnly(h, moves, k + 1, i - 1);
      AppendOnly(h, moves, i - 1, i);
      NoWorkerLeft(h, moves, k, i - 1);
      if moves[i - 1].Act? {
        LandedAt(h, moves, i - 1);
        hide Inv, Lands, Run;
        LeaseLossClears(moves[i - 1].op, h[i - 1], h[i]);
      } else {
        hide Inv;
        assert StepAt(h, moves, i - 1);
      }
    }
  }

  /** While a command waits for its report, the report counter stands still. */
  lemma {:induction false} ReportStaysBelow(h: seq<Project>, moves: seq<Move>, k: nat, i: nat)
    requires Run(h, moves) && k <= i < |h| && h[k].state.latestReport < h[k].state.latestCommand
    requires h[i].state.latestCommand == h[k].state.latestCommand && h[i].state.latestReport < h[i].state.latestCommand
    ensures h[i].state.latestReport == h[k].state.latestReport
    decreases i
  {
    Reachable(h, moves, k);
    Reachable(h, moves, i);
    if i > k {
      Reachable(h, moves, i - 1);
      AppendOnly(h, moves, k, i - 1);
      ReportStaysBelow(h, moves, k, i - 1);
    }
  }

  // ------------------------------------------------- what can move it again

  /** Only a resolution, or a portfolio publication over it, lands on such a record. */
  lemma OnlyTheseLand(op: Op, p: Project, q: Project)
    requires Inv(p) && Lands(op, p, q) && p.state.status == RecoveryRequired
    ensures op.Resolve? || op.PortfolioPublish?
  {
  }

  // ----------------------------------------------------- the local evidence

  /** What lies in one machine's runtime directory of the project: a journal for each run
      whose interruption was journaled, and the preserved report of each command. */
  datatype Desk = Desk(journals: map<RunId, RunJournal>, pending: map<int, PendingReport>)

  predicate LoadedFrom(desk: Desk, r: Resolution) {
    && r.runId in desk.journals && desk.journals[r.runId] == r.journal
    && r.commandId in desk.pending && desk.pending[r.commandId] == r.pending
  }

  /** The run's closed journal and the preserved report speak of the current command, as its
      file and the report counter have it. */
  predicate SupportedBy(desk: Desk, p: Project, runId: RunId)
    requires runId in desk.journals
  {
    var c, j := p.state.latestCommand, desk.journals[runId];
    && runId.WorkerRun? && j.runId == runId && j.commandId == c && j.claimGeneration >= 0
    && j.status == Acknowledged && !j.publishPending && j.sideEffectsUnknown && !j.success
    && c in desk.pending
    && var w := desk.pending[c];
    && w.commandId == c && w.runId == runId && w.claimGeneration == j.claimGeneration
    && w.basedOnReport == p.state.latestReport && !w.success
    && c in p.commands && p.commands[c].header.Some?
    && p.commands[c].header.value.source == Present(w.source)
    && (w.kind.Some? ==> p.commands[c].header.value.kind == Present(w.kind.value))
  }

  predicate Supported(desk: Desk, p: Project) {
    exists runId :: runId in desk.journals && SupportedBy(desk, p, runId)
  }

  /** Some resolution, prepared from a record of the run and from these files, lands here. */
  ghost predicate Resolvable(h: seq<Project>, i: nat, desk: Desk)
    requires i < |h|
  {
    exists op: Op, q: Project ::
      op.Resolve? && op.snap in h[..i + 1] && LoadedFrom(desk, op.resolution) && Lands(op, h[i], q)
  }

  /** What the operator can check on the record: the command has no report yet and its header
      can be read, the supervisor had reviewed the last report, and no owner decision is open. */
  predicate ReadyToResolve(p: Project) {
    var c := p.state.latestCommand;
    && p.state.latestReport < c
    && c in p.commands && p.commands[c].header.Some?
    && p.state.lastReviewedReport == p.state.latestReport
    && !p.state.humanRequired && !p.state.finalized
  }

  /** A command that got a lease in this run and is now under RECOVERY_REQUIRED can be resolved
      from a machine if and only if the record is ready to be and the machine's files support
      it. */
  lemma ResolvableIff(h: seq<Project>, moves: seq<Move>, k: nat, i: nat, desk: Desk)
    requires Run(h, moves) && ClaimedBy(h, moves, k, i) && h[i].state.status == RecoveryRequired
    ensures Resolvable(h, i, desk) <==> ReadyToResolve(h[i]) && Supported(desk, h[i])
  {
    Reachable(h, moves, i);
    ClaimedIsWritten(h, moves, k, i);
    NoWorkerLeft(h, moves, k, i);
    if h[i].state.latestReport < h[i].state.latestCommand {
      ReportStaysBelow(h, moves, k + 1, i);
    }
    hide Inv, WrittenFor, Run, ReadyToResolve, SupportedBy, LoadedFrom;
    if ReadyToResolve(h[i]) && Supported(desk, h[i]) {
      var runId :| runId in desk.journals && SupportedBy(desk, h[i], runId);
      ReadyIsBelow(h[i]);
      var op, q := ResolutionLands(h[i], desk, runId);
      assert h[..i + 1][i] == op.snap;
    }
    if Resolvable(h, i, desk) {
      var op: Op, q: Project :| op.Resolve? && op.snap in h[..i + 1] && LoadedFrom(desk, op.resolution) && Lands(op, h[i], q);
      var j :| 0 <= j < i + 1 && h[j] == op.snap;
      AppendOnly(h, moves, j, i);
      ResolvedWasReady(op, h[i], q, h[k + 1].state.latestReport, desk);
    }
  }

  lemma ReadyIsBelow(p: Project)
    requires ReadyToResolve(p)
    ensures p.state.latestReport < p.state.latestCommand
  {
  }

  lemma ResolutionLands(p: Project, desk: Desk, runId: RunId) returns (op: Op, q: Project)
    requires Inv(p) && p.state.status == RecoveryRequired && ReadyToResolve(p) && !p.state.workerPid
    requires WrittenFor(p, p.state.latestCommand, p.state.latestReport)
    requires runId in desk.journals && SupportedBy(desk, p, runId)
    ensures op.Resolve? && op.snap == p && LoadedFrom(desk, op.resolution) && Lands(op, p, q)
  {
    var c := p.state.latestCommand;
    var m, j, w := p.commands[c].header.value, desk.journals[runId], desk.pending[c];
    var r := Resolution(runId, c, j.claimGeneration, p.state.generation, m.source.value, m.kind.value, w.text, j, w);
    op := Resolve(p, r);
    assert ResolutionBound(p, r) && ResolutionAllowed(p, p, r);
    q := Build(op, p).value;
  }

  lemma ResolvedWasReady(op: Op, p: Project, q: Project, report: int, desk: Desk)
    requires Inv(p) && op.Resolve? && Lands(op, p, q) && SubMap(op.snap.commands, p.commands)
    requires WrittenFor(p, p.state.latestCommand, report) && report < p.state.latestCommand
    requires LoadedFrom(desk, op.resolution)
    ensures ReadyToResolve(p) && Supported(desk, p)
  {
    var r := op.resolution;
    assert p.commands[r.commandId] == op.snap.commands[r.commandId];
    assert SupportedBy(desk, p, r.runId);
  }

  /** While no portfolio publication lands, a command claimed in this run that is under
      RECOVERY_REQUIRED stays there as long as every resolution tried is loaded from files that
      do not support it, or the record is not ready: no writer can move the project again.
      `desks(n)` are the files that the operation of move n was loaded from. */
  lemma {:induction false} UnresolvedIsFinal(
    h: seq<Project>, moves: seq<Move>, desks: nat -> Desk, k: nat, i: nat, j: nat)
    requires Run(h, moves) && ClaimedBy(h, moves, k, i) && i <= j < |h|
    requires h[i].state.status == RecoveryRequired
    requires forall n: nat :: i <= n < j && moves[n].Act? ==>
               !moves[n].op.PortfolioPublish?
               && (moves[n].op.Resolve? ==> LoadedFrom(desks(n), moves[n].op.resolution)
                                            && !(ReadyToResolve(h[n]) && Supported(desks(n), h[n])))
    ensures h[j].state == h[i].state
    decreases j
  {
    if i < j {
      UnresolvedIsFinal(h, moves, desks, k, i, j - 1);
      StillClaimed(h, moves, k, i, j - 1);
      hide Run, ClaimedBy, ReadyToResolve, Supported, LoadedFrom;
      RecoveryStep(h, moves, desks(j - 1), k, j - 1);
    }
  }

  lemma StillClaimed(h: seq<Project>, moves: seq<Move>, k: nat, i: nat, n: nat)
    requires Run(h, moves) && ClaimedBy(h, moves, k, i) && i <= n < |h| && h[n].state == h[i].state
    ensures ClaimedBy(h, moves, k, n)
  {
  }

  /** One move, where any resolution was loaded from these files. */
  lemma RecoveryStep(h: seq<Project>, moves: seq<Move>, desk: Desk, k: nat, n: nat)
    requires Run(h, moves) && ClaimedBy(h, moves, k, n) && n < |moves| && h[n].state.status == RecoveryRequired
    requires moves[n].Act? ==>
               !moves[n].op.PortfolioPublish?
               && (moves[n].op.Resolve? ==> LoadedFrom(desk, moves[n].op.resolution)
                                            && !(ReadyToResolve(h[n]) && Supported(desk, h[n])))
    ensures h[n + 1].state == h[n].state
  {
    if moves[n].Act? {
      ClaimedIsWritten(h, moves, k, n);
      LandedAt(h, moves, n);
      hide Inv, Lands, Run, ReadyToResolve, Supported, LoadedFrom;
      OnlyTheseLand(moves[n].op, h[n], h[n + 1]);
      EvidenceIsFresh(h, moves, n);
      ResolvedWasReady(moves[n].op, h[n], h[n + 1], h[k + 1].state.latestReport, desk);
    } else {
      assert StepAt(h, moves, n);
    }
  }

  /** In particular a record that is not ready stays, whatever files there are.  Its having
      been reported is one such case. */
  lemma {:induction false} UnreadyIsFinal(h: seq<Project>, moves: seq<Move>, k: nat, i: nat, j: nat)
    requires Run(h, moves) && ClaimedBy(h, moves, k, i) && i <= j < |h|
    requires h[i].state.status == RecoveryRequired && !ReadyToResolve(h[i])
    requires forall n :: i <= n < j && moves[n].Act? ==> !moves[n].op.PortfolioPublish?
    ensures h[j].state == h[i].state
    decreases j
  {
    if i < j {
      UnreadyIsFinal(h, moves, k, i, j - 1);
      StillClaimed(h, moves, k, i, j - 1);
      AppendOnly(h, moves, i, j - 1);
      ClaimedIsWritten(h, moves, k, i);
      HeaderStays(h[i], h[j - 1]);
      var desk := if moves[j - 1].Act? && moves[j - 1].op.Resolve? then DeskOf(moves[j - 1].op.resolution) else Desk(map[], map[]);
      hide Run, ClaimedBy, ReadyToResolve, Supported;
      RecoveryStep(h, moves, desk, k, j - 1);
    }
  }

  /** The two files that a resolution was loaded from. */
  function DeskOf(r: Resolution): Desk {
    Desk(map[r.runId := r.journal], map[r.commandId := r.pending])
  }

  lemma HeaderStays(p: Project, q: Project)
    requires p.state == q.state && SubMap(p.commands, q.commands) && p.state.latestCommand in p.commands
    ensures ReadyToResolve(p) <==> ReadyToResolve(q)
  {
  }

  // ------------------------------------------- journals name the run's leases

  ghost predicate LeaseSeen(h: seq<Project>, i: nat, j: RunJournal)
    requires i < |h|
  {
    exists n :: 0 <= n <= i && MatchesLease(h[n].state, j.runId, j.commandId, j.claimGeneration, None)
  }

  /** Journals are written by workers for runs whose lease they hold. */
  ghost predicate JournalsNameLeases(h: seq<Project>, i: nat, desk: Desk)
    requires i < |h|
  {
    forall runId :: runId in desk.journals ==> LeaseSeen(h, i, desk.journals[runId])
  }

  /** What a resolution publishes is bound to the very run that held the command's lease, and
      that run was a worker's: an interrupted manual run is never resolved. */
  lemma ResolvedRunHeldTheLease(h: seq<Project>, moves: seq<Move>, k: nat, i: nat, desk: Desk, op: Op, q: Project)
    requires Run(h, moves) && ClaimedBy(h, moves, k, i) && h[i].state.status == RecoveryRequired
    requires JournalsNameLeases(h, i, desk)
    requires op.Resolve? && LoadedFrom(desk, op.resolution) && Lands(op, h[i], q)
    ensures h[k + 1].state.activeRun.Some? && moves[k].op.Claim?
    ensures op.resolution.runId == h[k + 1].state.activeRun.value.runId
    ensures op.resolution.claimGeneration == h[k + 1].state.generation
    ensures h[i].state.latestCommand in q.reports && q.reports[h[i].state.latestCommand].Recovered?
    ensures var report := q.reports[h[i].state.latestCommand];
            && report.commandId == h[i].state.latestCommand
            && report.runId == h[k + 1].state.activeRun.value.runId
            && report.claimGeneration == h[k + 1].state.generation
  {
    var r := op.resolution;
    ClaimedIsWritten(h, moves, k, i);
    LandedAt(h, moves, k);
    LeaseOfClaim(moves[k].op, h[k], h[k + 1]);
    ResolvedBinds(op, h[i], q);
    hide Inv, Lands, Run, WrittenFor;
    assert LeaseSeen(h, i, desk.journals[r.runId]);
    SeenIsClaimed(h, moves, k, i, desk.journals[r.runId]);
  }

  lemma ResolvedBinds(op: Op, p: Project, q: Project)
    requires op.Resolve? && Lands(op, p, q)
    ensures var r := op.resolution;
            && r.journal.runId == r.runId && r.journal.commandId == r.commandId == p.state.latestCommand
            && r.journal.claimGeneration == r.claimGeneration && r.runId.WorkerRun?
            && r.commandId in q.reports && q.reports[r.commandId].Recovered?
            && q.reports[r.commandId].commandId == r.commandId && q.reports[r.commandId].runId == r.runId
            && q.reports[r.commandId].claimGeneration == r.claimGeneration
  {
  }

  /** A lease seen anywhere in the run for the claimed command is the one its claim gave. */
  lemma SeenIsClaimed(h: seq<Project>, moves: seq<Move>, k: nat, i: nat, j: RunJournal)
    requires Run(h, moves) && ClaimedBy(h, moves, k, i) && LeaseSeen(h, i, j)
    requires j.commandId == h[i].state.latestCommand && h[k + 1].state.status == CodexRunning
    ensures h[k + 1].state.activeRun.Some? && h[k + 1].state.activeRun.value.runId == j.runId
    ensures h[k + 1].state.generation == j.claimGeneration
  {
    var n :| 0 <= n <= i && MatchesLease(h[n].state, j.runId, j.commandId, j.claimGeneration, None);
    assert h[n].state.latestCommand == j.commandId by {
      Reachable(h, moves, n);
    }
    hide Run;
    if n <= k + 1 {
      OneLeasePerCommand(h, moves, n, k + 1);
    } else {
      OneLeasePerCommand(h, moves, k + 1, n);
    }
  }

  /** So an interruption that was never journaled, an expired lease for one, can be ended by
      nothing but a portfolio publication: where no machine that tries a resolution has a
      journal of the claimed run, the state stays. */
  lemma {:induction false} UnjournaledIsFinal(
    h: seq<Project>, moves: seq<Move>, desks: nat -> Desk, k: nat, i: nat, j: nat)
    requires Run(h, moves) && ClaimedBy(h, moves, k, i) && i <= j < |h|
    requires h[i].state.status == RecoveryRequired && h[k + 1].state.activeRun.Some?
    requires forall n: nat :: i <= n < j && moves[n].Act? ==>
               !moves[n].op.PortfolioPublish?
               && (moves[n].op.Resolve? ==> LoadedFrom(desks(n), moves[n].op.resolution)
                                            && JournalsNameLeases(h, n, desks(n))
                                            && h[k + 1].state.activeRun.value.runId !in desks(n).journals)
    ensures h[j].state == h[i].state
    decreases j
  {
    if i < j {
      UnjournaledIsFinal(h, moves, desks, k, i, j - 1);
      StillClaimed(h, moves, k, i, j - 1);
      hide Run, ClaimedBy, ReadyToResolve, LoadedFrom;
      if moves[j - 1].Act? && moves[j - 1].op.Resolve? {
        ForeignJournals(h, moves, k, j - 1, desks(j - 1));
      }
      RecoveryStep(h, moves, desks(j - 1), k, j - 1);
    }
  }

  lemma ForeignJournals(h: seq<Project>, moves: seq<Move>, k: nat, n: nat, desk: Desk)
    requires Run(h, moves) && ClaimedBy(h, moves, k, n) && JournalsNameLeases(h, n, desk)
    requires h[k + 1].state.activeRun.Some? && h[k + 1].state.activeRun.value.runId !in desk.journals
    ensures !Supported(desk, h[n])
  {
    if Supported(desk, h[n]) {
      var runId :| runId in desk.journals && SupportedBy(desk, h[n], runId);
      assert LeaseSeen(h, n, desk.journals[runId]);
      ClaimedIsWritten(h, moves, k, n);
      hide Run, LeaseSeen;
      SeenIsClaimed(h, moves, k, n, desk.journals[runId]);
    }
  }

  lemma LeaseOfClaim(op: Op, p: Project, q: Project)
    requires Lands(op, p, q) && op.Claims()
    ensures q.state.activeRun.Some? && (q.state.activeRun.value.runId.WorkerRun? <==> op.Claim?)
  {
  }

  /** An expired lease by itself leaves a record that is ready but that no files support: with
      an empty desk it cannot be resolved, with the run's closed journal and report it can. */
  lemma ExpiredLease(p: Project, text: nat, nonce: nat, reason: nat, pending: nat)
    returns (h: seq<Project>, moves: seq<Move>, desk: Desk)
    requires Inv(p) && p.state.status == ReportReady && forall c :: c in p.commands ==> c <= p.state.latestCommand
    requires !p.state.humanRequired && !p.state.finalized
    ensures Run(h, moves) && |moves| == 3 && h[0] == p && moves[2].Act? && moves[2].op.Interrupt?
    ensures ClaimedBy(h, moves, 1, 3) && h[3].state.status == RecoveryRequired && ReadyToResolve(h[3])
    ensures !Resolvable(h, 3, Desk(map[], map[]))
    ensures JournalsNameLeases(h, 3, desk) && Resolvable(h, 3, desk)
  {
    var g, m := ClaimedRun(p, text, nonce);
    var c := p.state.latestCommand + 1;
    var runId := WorkerRun(c, nonce);
    var expiry := Interrupt(runId, c, g[2].state.generation, None, false);
    var q := ExpiryStep(expiry, g[2]);
    h, moves := g + [q], m + [Act(expiry)];
    RunExtends(g, m, Act(expiry), q);
    desk := Desk(map[runId := RunJournal(c, runId, g[2].state.generation, Acknowledged, false, true, false, reason)],
                 map[c := PendingReport(c, ScheduledChatgpt, p.state.latestReport, runId, g[2].state.generation, None, false, pending)]);
    assert SupportedBy(desk, q, runId);
    assert MatchesLease(h[2].state, runId, c, g[2].state.generation, None);
    assert LeaseSeen(h, 3, desk.journals[runId]);
    hide Run, Inv, Lands, SupportedBy, ReadyToResolve;
    ResolvableIff(h, moves, 1, 3, desk);
    ResolvableIff(h, moves, 1, 3, Desk(map[], map[]));
  }

  lemma ExpiryStep(op: Op, p: Project) returns (q: Project)
    requires op.Interrupt? && MatchesLease(p.state, op.runId, op.commandId, op.claimGeneration, op.source)
    ensures Lands(op, p, q) && q == p.(state := InterruptedState(p.state, op.runId))
  {
    q := Build(op, p).value;
  }
}
