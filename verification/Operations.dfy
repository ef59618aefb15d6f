/** The canonical writers, each as the four parts its source gives to `publish_cas`.

An operation carries the evidence it read before the call: the project snapshot and the
identities it binds.  `Prepared` is what it checks on that snapshot before calling,
`Expected` and `Already` are its two predicates on the freshly synchronized project, and
`Build` is its payload builder, `None` where the builder raises. */
module Operations {
  import opened Protocol
  import opened IntSets

  datatype Request = Request(
    commandId: int,
    source: Source,
    kind: Kind,
    basedOnReport: int,
    expectedGeneration: int,
    command: Command)

  /** A completed run's report, bound to the lease it was produced under. */
  datatype Evidence = Evidence(
    runId: RunId,
    commandId: int,
    claimGeneration: int,
    source: Source,
    target: Status,
    text: Report)

  /** pending, reconciled, superseded and conflict, as the journal file names them. */
  datatype JournalStatus = Awaiting | Acknowledged | Outdated | Contradicted

  /** A local recovery journal; `success` where it records a successful final marker. */
  datatype RunJournal = RunJournal(
    commandId: int,
    runId: RunId,
    claimGeneration: int,
    status: JournalStatus,
    publishPending: bool,
    sideEffectsUnknown: bool,
    success: bool,
    reason: nat)

  /** A local pending report with a complete header; `success` where its outcome is no
      interrupted one or its text contains a successful marker. */
  datatype PendingReport = PendingReport(
    commandId: int,
    source: Source,
    basedOnReport: int,
    runId: RunId,
    claimGeneration: int,
    kind: Option<Kind>,
    success: bool,
    text: nat)

  /** An operator's request, the digest that was reviewed, and the two local files it found. */
  datatype Resolution = Resolution(
    runId: RunId,
    commandId: int,
    claimGeneration: int,
    expectedGeneration: int,
    source: Source,
    kind: Kind,
    reviewed: nat,
    journal: RunJournal,
    pending: PendingReport)

  /** What a planner hands to the portfolio publisher. */
  datatype Plan = Plan(kind: Kind, source: Source, executorValid: bool, manualRequestId: Option<RequestId>,
                       headerParses: bool, bodyParses: bool, text: nat)

  datatype Op =
    | Publish(snap: Project, request: Request, ownerEvidence: bool)
    | Claim(snap: Project, runId: RunId)
    | Complete(evidence: Evidence)
    | ManualStart(snap: Project, requestId: RequestId, kind: Kind, headerParses: bool, bodyParses: bool, text: nat)
    | Withdraw(snap: Project, target: int, requestId: RequestId, headerParses: bool, bodyParses: bool, text: nat)
    | ManualFinish(snap: Project, runId: RunId, commandId: int, claimGeneration: int,
                   outcome: Outcome, delivered: bool, report: Report)
    | Reconcile(snap: Project, evidence: Evidence)
    | Interrupt(runId: RunId, commandId: int, claimGeneration: int, source: Option<Source>, typed: bool)
    | Resolve(snap: Project, resolution: Resolution)
    | Repair(snap: Project, target: int, replacementId: int, replacement: Command)
    | Adopt(snap: Project, target: int, replacementId: int)
    | PortfolioPublish(snap: Project, plan: Plan)
    | ManualPriority(snap: Project, plan: Plan)
  {
    /** The writers whose first read is a project snapshot. */
    predicate ReadsSnapshot() {
      !Complete? && !Interrupt?
    }

    /** Whether returning from the call lets the caller execute a command. */
    predicate Claims() {
      Claim? || ManualStart? || Withdraw?
    }
  }

  // ---------------------------------------------------------------- helpers

  /** `next_command_id`: one past every id the project knows, in state or as a file. */
  function NextCommandId(p: Project): (id: int)
    ensures id > p.state.latestCommand && id > p.state.latestReport
    ensures forall c :: c in p.commands ==> c < id
  {
    var ids := {p.state.latestCommand, p.state.latestReport} + p.commands.Keys;
    assert p.state.latestCommand in ids && p.state.latestReport in ids;
    MaxOf(ids) + 1
  }

  function WithCommand(p: Project, s: State, id: int, c: Command): Project {
    Project(s, p.commands[id := c], p.reports)
  }

  function WithReport(p: Project, s: State, id: int, r: Report): Project {
    Project(s, p.commands, p.reports[id := r])
  }

  // ---------------------------------------------------------------- gateway

  /** What `StagedPublicationRequest.from_bytes` lets through. */
  predicate ValidRequest(r: Request) {
    && r.commandId >= 1 && r.basedOnReport >= 0 && r.expectedGeneration >= 1
    && r.command.header.Some?
    && var m := r.command.header.value;
    && ValidMeta(m)
    && m.manualRequestId.Absent? && m.supersedes.Absent? && m.withdraws.Absent?
    && m.commandId == Present(r.commandId)
    && m.source == Present(r.source)
    && m.kind == Present(r.kind)
    && m.basedOnReport == Present(r.basedOnReport)
    && m.expectedGeneration == Present(r.expectedGeneration)
    && ((r.source == ScheduledChatgpt && r.kind == Execute) || (r.source == Finalizer && r.kind == Finalize))
  }

  function TargetStatus(kind: Kind): Status {
    if kind == Finalize then Finalizing else CommandReady
  }

  function PublishedState(s: State, r: Request): State
    requires ValidRequest(r)
  {
    s.(status := TargetStatus(r.kind), generation := r.expectedGeneration, latestCommand := r.commandId,
       lastReviewedReport := r.basedOnReport, activeRun := None,
       humanRequired := if s.status == HumanRequired then false else s.humanRequired)
  }

  /** `validate_exact_command_for_publication` on the projected state. */
  predicate PublicationPreflight(c: Command, projected: State, target: Status, id: int) {
    && c.header.Some?
    && ValidMeta(c.header.value)
    && c.header.value.commandId == Present(id)
    && (if target == Finalizing
        then c.header.value.source == Present(Finalizer) && c.header.value.kind == Present(Finalize)
        else c.header.value.kind == Present(Execute))
    && ValidPending(projected, id, c.header.value)
    && c.phasedBodyParses
  }

  predicate PublishAlready(p: Project, r: Request) {
    && p.state.status == TargetStatus(r.kind)
    && p.state.generation == r.expectedGeneration
    && p.state.latestReport == r.basedOnReport
    && p.state.lastReviewedReport == r.basedOnReport
    && p.state.activeRun.None?
    && p.state.latestCommand == r.commandId
    && r.commandId in p.commands
    && p.commands[r.commandId] == r.command
  }

  predicate PublishSlotFree(p: Project, r: Request) {
    && r.commandId !in p.commands
    && r.commandId !in p.reports
    && forall id :: id in p.commands ==> id < r.commandId
  }

  predicate PublishPrepared(p: Project, r: Request, ownerEvidence: bool) {
    && ValidRequest(r)
    && !PublishAlready(p, r)
    && (p.state.status == ReportReady ||
        (p.state.status == HumanRequired && p.state.humanRequired && ownerEvidence
         && r.source == ScheduledChatgpt && r.kind == Execute))
    && p.state.activeRun.None?
    && r.expectedGeneration == p.state.generation + 1
    && r.basedOnReport == p.state.latestReport
    && r.commandId == p.state.latestCommand + 1
    && PublishSlotFree(p, r)
    && PublicationPreflight(r.command, PublishedState(p.state, r), TargetStatus(r.kind), r.commandId)
  }

  // ----------------------------------------------------------------- worker

  /** `process_project`: what must hold of the snapshot before a claim is attempted. */
  predicate Claimable(p: Project) {
    var c := p.state.latestCommand;
    && Pending(p.state.status)
    && c > 0 && c > p.state.latestReport
    && c in p.commands
    && c !in p.reports
    && p.commands[c].header.Some?
    && ValidPending(p.state, c, p.commands[c].header.value)
    && p.commands[c].phasedBodyParses
  }

  function ClaimedState(s: State, snap: Project, runId: RunId): State
    requires Claimable(snap)
  {
    var m := snap.commands[snap.state.latestCommand].header.value;
    s.(status := CodexRunning, generation := s.generation + 1,
       activeRun := Some(Lease(runId, snap.state.latestCommand, m.source.value, None, m.basedOnReport.value,
                               snap.state.generation, s.generation + 1, None, None)),
       workerPid := true)
  }

  function ReportedState(s: State, commandId: nat, target: Status): State {
    s.(latestReport := commandId, generation := s.generation + 1, workerPid := false,
       activeRun := None, status := target)
  }

  predicate ReportTarget(s: Status) {
    s == ReportReady || s == FinalReportReady || s == RecoveryRequired
  }

  predicate HoldsLease(s: State, e: Evidence) {
    MatchesLease(s, e.runId, e.commandId, e.claimGeneration, Some(e.source))
  }

  // ----------------------------------------------------------------- manual

  function RenderManual(
    id: int, s: State, kind: Kind, request: RequestId, supersedes: Option<int>, withdraws: Option<int>,
    headerParses: bool, bodyParses: bool, text: nat): Command
  {
    var m := Meta(Present(id), Present(ManualChatgpt), Present(s.latestReport), Present(s.generation + 1),
                  Present(kind), true, Present(request),
                  if supersedes.Some? then Present(supersedes.value) else Absent,
                  if withdraws.Some? then Present(withdraws.value) else Absent, false);
    Command(if headerParses then Some(m) else None, bodyParses, text)
  }

  function ManualClaimState(s: State, id: nat, kind: Kind, request: RequestId, withdraws: Option<int>): State {
    s.(status := CodexRunning, generation := s.generation + 2, latestCommand := id,
       lastReviewedReport := s.latestReport,
       activeRun := Some(Lease(ManualRun(id, request), id, ManualChatgpt, Some(kind), s.latestReport,
                               s.generation, s.generation + 2, Some(request), withdraws)),
       workerPid := false)
  }

  /** `canonical_command_meta`: None where it raises or the status is not COMMAND_READY. */
  function ExistingMeta(p: Project): Option<Meta> {
    var h := HeaderOf(p, p.state.latestCommand);
    if p.state.status == CommandReady && h.Some? && ValidMeta(h.value) then h else None
  }

  predicate ManualPrepared(p: Project, kind: Kind) {
    && ManualStartDecision(p.state, ExistingMeta(p)).Some?
    && (kind == Finalize ==> p.state.status == ReportReady)
  }

  function WithdrawReplacement(op: Op): Command
    requires op.Withdraw?
  {
    RenderManual(NextCommandId(op.snap), op.snap.state, Execute, op.requestId, None, Some(op.target),
                 op.headerParses, op.bodyParses, op.text)
  }

  predicate WithdrawHolds(p: Project, op: Op)
    requires op.Withdraw?
  {
    && op.target in op.snap.commands
    && op.snap.commands[op.target].header.Some?
    && !ContractError(op.snap.commands[op.target].header.value, op.target)
    && WithdrawDecision(p, op.target, op.snap.commands[op.target].header.value,
                        NextCommandId(op.snap), WithdrawReplacement(op).header)
  }

  predicate WithdrawExpected(p: Project, op: Op)
    requires op.Withdraw?
  {
    && p.state == op.snap.state
    && WithdrawHolds(p, op)
    && op.target in p.commands && p.commands[op.target] == op.snap.commands[op.target]
    && (forall w :: w in p.state.withdrawnCommands ==> ValidWithdrawal(w))
  }

  function WithdrawalRecord(op: Op): Withdrawal
    requires op.Withdraw? && op.target in op.snap.commands && op.snap.commands[op.target].header.Some?
    requires ValidMeta(op.snap.commands[op.target].header.value)
  {
    var m := op.snap.commands[op.target].header.value;
    Withdrawal(op.target, m.source.value, m.kind.value, op.snap.commands[op.target], NextCommandId(op.snap))
  }

  predicate WithdrawAlready(p: Project, op: Op)
    requires op.Withdraw? && WithdrawHolds(op.snap, op)
  {
    var id := NextCommandId(op.snap);
    && p.state.status == CodexRunning
    && p.state.generation == op.snap.state.generation + 2
    && p.state.latestCommand == id
    && p.state.latestReport == op.snap.state.latestReport
    && p.state.activeRun == ManualClaimState(op.snap.state, id, Execute, op.requestId, Some(op.target)).activeRun
    && op.target in p.commands && p.commands[op.target] == op.snap.commands[op.target]
    && op.target !in p.reports && id !in p.reports
    && id in p.commands && p.commands[id] == WithdrawReplacement(op)
    && WithdrawalRecord(op) in p.state.withdrawnCommands
  }

  // --------------------------------------------------------------- recovery

  function InterruptedState(s: State, runId: RunId): State {
    s.(status := RecoveryRequired, generation := s.generation + 1, activeRun := None,
       workerPid := false, recoveryRun := Some(runId))
  }

  /** `matches_recovery_state`. */
  predicate MatchesRecovery(s: State, runId: RunId, commandId: int, claimGeneration: int) {
    && s.status == RecoveryRequired
    && s.activeRun.None?
    && !s.workerPid
    && s.generation == claimGeneration + 1
    && s.latestCommand == commandId
    && s.recoveryRun == Some(runId)
  }

  function ResolvedState(s: State, r: Resolution): State
    requires r.commandId >= 0 && r.claimGeneration >= 0
  {
    s.(status := ReportReady, generation := s.generation + 1, latestReport := r.commandId,
       activeRun := None, workerPid := false, humanRequired := false, recoveryRun := None,
       recoveryNote := Some(RecoveryNote(r.commandId, r.runId, r.claimGeneration)))
  }

  /** The command file the resolution is bound to, with its identity checked. */
  predicate ResolutionBound(snap: Project, r: Resolution) {
    && r.commandId >= 1 && r.claimGeneration >= 0 && r.expectedGeneration >= 0
    && r.commandId in snap.commands
    && snap.commands[r.commandId].header.Some?
    && var m := snap.commands[r.commandId].header.value;
    && ValidMeta(m)
    && m.commandId == Present(r.commandId)
    && m.source == Present(r.source)
    && m.kind == Present(r.kind)
    && JournalFits(r) && PendingFits(r, m.basedOnReport.value)
  }

  /** `_load_journal`: a closed journal of exactly this run, which only a worker's can be. */
  predicate JournalFits(r: Resolution) {
    && r.runId.WorkerRun?
    && r.journal.commandId == r.commandId
    && r.journal.runId == r.runId
    && r.journal.claimGeneration == r.claimGeneration
    && r.journal.status == Acknowledged
    && !r.journal.publishPending
    && r.journal.sideEffectsUnknown
    && !r.journal.success
  }

  /** `_validate_pending_report`, and the digest the operator reviewed. */
  predicate PendingFits(r: Resolution, basedOnReport: int) {
    && r.pending.commandId == r.commandId
    && r.pending.source == r.source
    && r.pending.basedOnReport == basedOnReport
    && r.pending.runId == r.runId
    && r.pending.claimGeneration == r.claimGeneration
    && (r.pending.kind.Some? ==> r.pending.kind.value == r.kind)
    && !r.pending.success
    && r.pending.text == r.reviewed
  }

  /** `_build_proposed_report`. */
  function ProposedReport(snap: Project, r: Resolution): Report
    requires ResolutionBound(snap, r)
  {
    Recovered(r.commandId, r.source, r.kind, ResolutionBase(snap, r), r.runId, r.claimGeneration,
              r.journal.reason, r.pending.text)
  }

  function ResolutionBase(snap: Project, r: Resolution): int
    requires ResolutionBound(snap, r)
  {
    snap.commands[r.commandId].header.value.basedOnReport.value
  }

  /** `validate_recovery_resolution` answers ALLOW. */
  predicate ResolutionAllowed(p: Project, snap: Project, r: Resolution)
    requires ResolutionBound(snap, r)
  {
    && (r.commandId in p.reports ==> p.reports[r.commandId] == ProposedReport(snap, r))
    && p.state.status == RecoveryRequired
    && p.state.generation == r.expectedGeneration
    && p.state.latestCommand == r.commandId
    && p.state.latestReport == ResolutionBase(snap, r)
    && p.state.lastReviewedReport == ResolutionBase(snap, r)
    && p.state.activeRun.None?
    && !p.state.workerPid && !p.state.humanRequired && !p.state.finalized
  }

  /** `validate_recovery_resolution` answers ALREADY_RESOLVED. */
  predicate ResolutionDone(p: Project, snap: Project, r: Resolution)
    requires ResolutionBound(snap, r)
  {
    && p.state.status == ReportReady
    && p.state.generation == r.expectedGeneration + 1
    && p.state.latestCommand == r.commandId
    && p.state.latestReport == r.commandId
    && p.state.lastReviewedReport == ResolutionBase(snap, r)
    && p.state.activeRun.None?
    && !p.state.workerPid && !p.state.humanRequired
    && p.state.recoveryNote == Some(RecoveryNote(r.commandId, r.runId, r.claimGeneration))
    && r.commandId in p.reports && p.reports[r.commandId] == ProposedReport(snap, r)
  }

  // ----------------------------------------------------------------- repair

  function RepairedState(s: State, id: nat): State {
    s.(status := CommandReady, generation := s.generation + 1, latestCommand := id, activeRun := None)
  }

  predicate RepairHolds(p: Project, snap: Project, target: int, id: int, c: Command) {
    && id >= 0
    && target in snap.commands && target in p.commands && p.commands[target] == snap.commands[target]
    && c.header.Some?
    && !ContractError(c.header.value, id)
    && RepairEligible(p, target, id, c.header.value, false, false)
  }

  predicate RepairAlready(p: Project, snap: Project, target: int, id: int, c: Command) {
    && p.state.status == CommandReady
    && p.state.generation == snap.state.generation + 1
    && p.state.latestCommand == id
    && p.state.latestReport == snap.state.latestReport
    && p.state.activeRun.None?
    && target in snap.commands && target in p.commands && p.commands[target] == snap.commands[target]
    && id in p.commands && p.commands[id] == c
    && id !in p.reports
  }

  /** The staged form also runs the supersede graph check over every relation on file. */
  predicate AdoptHolds(p: Project, target: int, id: int) {
    && id >= 0 && id != target
    && id in p.commands
    && p.commands[id].header.Some?
    && RepairEligible(p, target, id, p.commands[id].header.value, id in p.reports, true)
  }

  // -------------------------------------------------------------- portfolio

  /** `_render_command`: None where its metadata is refused. */
  function RenderPlan(id: int, s: State, plan: Plan, supersedes: Option<int>): Option<Command> {
    var m := Meta(Present(id), Present(plan.source), Present(s.latestReport), Present(s.generation + 1), Present(plan.kind),
                  plan.executorValid, if plan.manualRequestId.Some? then Present(plan.manualRequestId.value) else Absent,
                  if supersedes.Some? then Present(supersedes.value) else Absent, Absent, false);
    if ValidMeta(m) then Some(Command(if plan.headerParses then Some(m) else None, plan.bodyParses, plan.text)) else None
  }

  function PortfolioTarget(plan: Plan): Status {
    if plan.kind == Finalize || plan.source == Finalizer then Finalizing else CommandReady
  }

  function PortfolioState(s: State, plan: Plan): State {
    s.(status := PortfolioTarget(plan), generation := s.generation + 1, latestCommand := s.latestCommand + 1,
       lastReviewedReport := s.latestReport, activeRun := None)
  }

  /** `CasProjectPublisher.publish`: its expected fields; nothing is asked of the status but
      that it is still the snapshot's. */
  predicate PortfolioExpected(p: Project, snap: Project) {
    SameReadySnapshot(p.state, snap.state) && p.state.lastReviewedReport == snap.state.lastReviewedReport
  }

  function PortfolioBuild(p: Project, plan: Plan): Option<Project> {
    var id := p.state.latestCommand + 1;
    var c := RenderPlan(id, p.state, plan, None);
    if c.Some? && id !in p.commands && PublicationPreflight(c.value, PortfolioState(p.state, plan), PortfolioTarget(plan), id)
    then Some(WithCommand(p, PortfolioState(p.state, plan), id, c.value)) else None
  }

  /** `_validate_manual_target`: a fully valid, unclaimed, unreported scheduled command that
      is nobody's replacement. */
  predicate PriorityTarget(p: Project) {
    var c := p.state.latestCommand;
    && p.state.status == CommandReady && p.state.activeRun.None?
    && c >= 1 && c > p.state.latestReport
    && c in p.commands && c !in p.reports
    && p.commands[c].header.Some?
    && var m := p.commands[c].header.value;
    && ValidPending(p.state, c, m)
    && m.source == Present(ScheduledChatgpt) && m.kind == Present(Execute)
    && m.manualRequestId.Absent? && m.supersedes.Absent?
  }

  function PriorityState(s: State, id: nat): State {
    s.(status := CommandReady, generation := s.generation + 1, latestCommand := id, activeRun := None)
  }

  predicate PriorityAlready(p: Project, snap: Project, plan: Plan) {
    var id := NextCommandId(snap);
    && plan.manualRequestId.Some?
    && p.state.status == CommandReady && p.state.activeRun.None?
    && p.state.generation == snap.state.generation + 1
    && p.state.latestCommand == id
    && p.state.latestReport == snap.state.latestReport
    && id in p.commands
    && RenderPlan(id, snap.state, plan, Some(snap.state.latestCommand)) == Some(p.commands[id])
  }

  predicate PriorityPrepared(snap: Project, plan: Plan) {
    plan.source == ManualChatgpt && plan.kind == Execute && PriorityTarget(snap)
  }

  function PriorityBuild(p: Project, snap: Project, plan: Plan): Option<Project> {
    var id := NextCommandId(snap);
    var c := RenderPlan(id, p.state, plan, Some(p.state.latestCommand));
    if NextCommandId(p) == id && id !in p.commands
       && c.Some? && PublicationPreflight(c.value, PriorityState(p.state, id), CommandReady, id)
    then Some(WithCommand(p, PriorityState(p.state, id), id, c.value)) else None
  }

  // -------------------------------------------------- the four parts together

  predicate Prepared(op: Op) {
    match op
    case Publish(snap, r, owner) => PublishPrepared(snap, r, owner)
    case Claim(snap, runId) => Claimable(snap) && runId.WorkerRun? && runId.command == snap.state.latestCommand
    case Complete(e) => ReportTarget(e.target)
    case ManualStart(snap, _, kind, _, _, _) => ManualPrepared(snap, kind)
    case Withdraw(snap, _, _, _, _, _) => WithdrawHolds(snap, op)
    case ManualFinish(snap, runId, c, g, _, _, _) => MatchesLease(snap.state, runId, c, g, Some(ManualChatgpt))
    case Reconcile(snap, e) =>
      && ReportTarget(e.target)
      && e.commandId !in snap.reports
      && snap.state.latestReport == e.commandId - 1
      && HoldsLease(snap.state, e)
    case Interrupt(_, _, _, _, _) => true
    case Resolve(snap, r) => ResolutionBound(snap, r) && ResolutionAllowed(snap, snap, r)
    case Repair(snap, target, id, c) => RepairHolds(snap, snap, target, id, c)
    case Adopt(snap, target, id) => AdoptHolds(snap, target, id)
    case PortfolioPublish(snap, _) => snap.state.status != CommandReady
    case ManualPriority(snap, plan) => PriorityPrepared(snap, plan)
  }

  predicate Expected(op: Op, p: Project)
    requires Prepared(op)
  {
    match op
    case Publish(snap, r, _) => p.state == snap.state
    case Claim(snap, runId) => SameReadySnapshot(p.state, snap.state)
    case Complete(e) => HoldsLease(p.state, e)
    case ManualStart(snap, _, _, _, _, _) => SameReadySnapshot(p.state, snap.state)
    case Withdraw(snap, _, _, _, _, _) => WithdrawExpected(p, op)
    case ManualFinish(_, runId, c, g, _, _, _) => MatchesLease(p.state, runId, c, g, Some(ManualChatgpt))
    case Reconcile(_, e) =>
      p.state.latestReport == e.commandId - 1 && e.commandId !in p.reports && HoldsLease(p.state, e)
    case Interrupt(runId, c, g, source, _) => MatchesLease(p.state, runId, c, g, source)
    case Resolve(snap, r) => ResolutionAllowed(p, snap, r)
    case Repair(snap, target, id, c) => RepairHolds(p, snap, target, id, c)
    case Adopt(snap, target, id) =>
      p.state == snap.state && p.commands == snap.commands && AdoptHolds(p, target, id)
    case PortfolioPublish(snap, _) => PortfolioExpected(p, snap)
    case ManualPriority(snap, _) => SameReadySnapshot(p.state, snap.state) && PriorityTarget(p)
  }

  predicate Already(op: Op, p: Project)
    requires Prepared(op)
  {
    match op
    case Publish(_, r, _) => PublishAlready(p, r)
    case Claim(_, runId) =>
      p.state.status == CodexRunning && p.state.activeRun.Some? && p.state.activeRun.value.runId == runId
    case Complete(e) => p.state.latestReport == e.commandId && ReportTarget(p.state.status)
    case ManualStart(_, request, _, _, _, _) =>
      && p.state.status == CodexRunning
      && p.state.activeRun.Some? && p.state.activeRun.value.manualRequestId == Some(request)
    case Withdraw(_, _, _, _, _, _) => WithdrawAlready(p, op)
    case ManualFinish(_, _, c, _, _, _, _) =>
      && p.state.latestReport == c && p.state.activeRun.None?
      && (p.state.status == ReportReady || p.state.status == FinalReportReady)
    case Reconcile(_, e) =>
      && e.commandId in p.reports && p.state.latestReport >= e.commandId
      && p.reports[e.commandId] == e.text && !HoldsLease(p.state, e)
    case Interrupt(runId, c, g, _, typed) =>
      if typed then p.state.status == RecoveryRequired else MatchesRecovery(p.state, runId, c, g)
    case Resolve(snap, r) => ResolutionDone(p, snap, r)
    case Repair(snap, target, id, c) => RepairAlready(p, snap, target, id, c)
    case Adopt(_, _, _) => false
    case PortfolioPublish(_, _) => false
    case ManualPriority(snap, plan) => PriorityAlready(p, snap, plan)
  }

  function Build(op: Op, p: Project): Option<Project>
    requires Prepared(op) && Expected(op, p)
  {
    match op
    case Publish(snap, r, _) =>
      if PublishSlotFree(p, r) && PublicationPreflight(r.command, PublishedState(p.state, r), TargetStatus(r.kind), r.commandId)
      then Some(WithCommand(p, PublishedState(p.state, r), r.commandId, r.command)) else None
    case Claim(snap, runId) => Some(p.(state := ClaimedState(p.state, snap, runId)))
    case Complete(e) =>
      Some(WithReport(p, ReportedState(p.state, e.commandId, e.target), e.commandId, e.text))
    case ManualStart(snap, request, kind, headerParses, bodyParses, text) =>
      var id := NextCommandId(p);
      var supersedes := ManualStartDecision(snap.state, ExistingMeta(snap)).value;
      var c := RenderManual(id, p.state, kind, request, supersedes, None, headerParses, bodyParses, text);
      Some(WithCommand(p, ManualClaimState(p.state, id, kind, request, None), id, c))
    case Withdraw(snap, target, request, _, _, _) =>
      var id := NextCommandId(snap);
      if id in p.commands then None else
        var s := ManualClaimState(p.state, id, Execute, request, Some(target));
        Some(WithCommand(p, s.(withdrawnCommands := s.withdrawnCommands + [WithdrawalRecord(op)]),
                         id, WithdrawReplacement(op)))
    case ManualFinish(snap, _, c, _, outcome, delivered, text) =>
      if c in p.reports then None else
        var kind := if snap.state.activeRun.value.kind.Some? then snap.state.activeRun.value.kind.value else Execute;
        Some(WithReport(p, ReportedState(p.state, c, ReportStatusAfterExecution(kind, outcome, delivered)), c, text))
    case Reconcile(_, e) =>
      Some(WithReport(p, ReportedState(p.state, e.commandId, e.target), e.commandId, e.text))
    case Interrupt(runId, _, _, _, _) => Some(p.(state := InterruptedState(p.state, runId)))
    case Resolve(snap, r) => Some(WithReport(p, ResolvedState(p.state, r), r.commandId, ProposedReport(snap, r)))
    case Repair(_, _, id, c) =>
      if id in p.commands then None else Some(WithCommand(p, RepairedState(p.state, id), id, c))
    case Adopt(_, _, id) => Some(p.(state := RepairedState(p.state, id)))
    case PortfolioPublish(_, plan) => PortfolioBuild(p, plan)
    case ManualPriority(snap, plan) => PriorityBuild(p, snap, plan)
  }
}
