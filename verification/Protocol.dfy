/** The values of Protocol v2 and the pure decisions of `protocol_core`.

A canonical project is its state record, its command files and its report files.
Command metadata is kept raw: a field may be absent, malformed or present, so that
the validators below decide on the same inputs as the originals do. */
module Protocol {

  datatype Option<+T> = None | Some(value: T)

  /** One member of a parsed JSON object. */
  datatype Field<+T> = Absent | Malformed | Present(value: T)

  datatype Status =
    | CommandReady
    | CodexRunning
    | ReportReady
    | Finalizing
    | FinalReportReady
    | HumanRequired
    | RecoveryRequired
    | Done
    | Failed

  datatype Source = ScheduledChatgpt | ManualChatgpt | UserDirect | Finalizer
  datatype Kind = Execute | Finalize

  type RequestId = nat

  /** Worker run ids carry a fresh nonce; manual ones the command and the request id. */
  datatype RunId = WorkerRun(command: int, nonce: nat) | ManualRun(command: int, request: RequestId)

  datatype Meta = Meta(
    commandId: Field<int>,
    source: Field<Source>,
    basedOnReport: Field<int>,
    expectedGeneration: Field<int>,
    kind: Field<Kind>,
    executorValid: bool,
    manualRequestId: Field<RequestId>,
    supersedes: Field<int>,
    withdraws: Field<int>,
    unknownFields: bool)

  /** A command file: what its header parses to, whether its optional phased body
      parses, and an opaque stand-in for the exact bytes. */
  datatype Command = Command(header: Option<Meta>, phasedBodyParses: bool, text: nat)

  /** A report's bytes: as its author wrote them, or the wrapper that recovery resolution
      puts around the preserved report of an interrupted run. */
  datatype Report =
    | Authored(text: nat)
    | Recovered(commandId: int, source: Source, kind: Kind, basedOnReport: int, runId: RunId, claimGeneration: int,
                reason: nat, pending: nat)

  datatype Lease = Lease(
    runId: RunId,
    commandId: int,
    source: Source,
    kind: Option<Kind>,
    basedOnReport: int,
    baseGeneration: nat,
    claimedGeneration: nat,
    manualRequestId: Option<RequestId>,
    withdraws: Option<int>)

  datatype Withdrawal = Withdrawal(
    commandId: int,
    source: Source,
    kind: Kind,
    command: Command,
    replacementId: int)

  datatype RecoveryNote = RecoveryNote(commandId: int, runId: RunId, claimGeneration: nat)

  datatype State = State(
    status: Status,
    generation: nat,
    latestCommand: nat,
    latestReport: nat,
    lastReviewedReport: nat,
    activeRun: Option<Lease>,
    withdrawnCommands: seq<Withdrawal>,
    humanRequired: bool,
    finalized: bool,
    workerPid: bool,
    recoveryRun: Option<RunId>,
    recoveryNote: Option<RecoveryNote>)

  datatype Project = Project(
    state: State,
    commands: map<int, Command>,
    reports: map<int, Report>)

  predicate Pending(status: Status) {
    status == CommandReady || status == Finalizing
  }

  // ---------------------------------------------------------------- metadata

  predicate AtLeast(f: Field<int>, minimum: int) {
    f.Present? && f.value >= minimum
  }

  /** `validate_command_metadata` accepts. */
  predicate ValidMeta(m: Meta) {
    && !m.unknownFields
    && AtLeast(m.commandId, 1)
    && AtLeast(m.basedOnReport, 0)
    && AtLeast(m.expectedGeneration, 1)
    && m.source.Present?
    && m.kind.Present?
    && m.executorValid
    && !m.manualRequestId.Malformed?
    && (m.supersedes.Absent? || AtLeast(m.supersedes, 1))
    && (m.withdraws.Absent? || (AtLeast(m.withdraws, 1) && m.supersedes.Absent?))
  }

  /** `command_contract_errors` is non-empty. */
  predicate ContractError(m: Meta, filenameId: int) {
    || !ValidMeta(m)
    || (m.commandId.Present? && m.commandId.value != filenameId)
  }

  /** `validate_pending_command` accepts. */
  predicate ValidPending(s: State, commandId: int, m: Meta) {
    && ValidMeta(m)
    && commandId >= 1
    && m.commandId.value == commandId
    && m.expectedGeneration.value == s.generation
    && m.basedOnReport.value == s.latestReport
  }

  // ------------------------------------------------------- unclaimed repair

  /** `assess_unclaimed_command_repair`: a state, lease or report guard fails. */
  predicate RepairStateError(p: Project, target: int) {
    || p.state.status != CommandReady
    || p.state.activeRun.Some?
    || target !in p.commands
    || target in p.reports
    || target < 1
    || p.state.latestCommand < 1
    || target != p.state.latestCommand
  }

  /** The target command has a deterministic contract error. */
  predicate RepairTargetError(s: State, header: Option<Meta>, filenameId: int) {
    match header
    case None => true
    case Some(m) =>
      || ContractError(m, filenameId)
      || (AtLeast(m.expectedGeneration, 0) && m.expectedGeneration.value != s.generation)
      || (AtLeast(m.basedOnReport, 0) && m.basedOnReport.value != s.latestReport)
  }

  /** The file as `_read_command` sees it: a missing file has no header. */
  function HeaderOf(p: Project, id: int): Option<Meta> {
    if id in p.commands then p.commands[id].header else None
  }

  /** What repair inspection answers when no replacement is given. */
  predicate RepairInspectionEligible(p: Project, target: int) {
    && !RepairStateError(p, target)
    && RepairTargetError(p.state, HeaderOf(p, target), target)
  }

  /** Some replacement guard fails.  `staged` selects the staged form: the replacement
      file is already present and its source and kind need not match the target's. */
  predicate RepairReplacementError(
    p: Project, target: int, replacementId: int, m: Meta, reportExists: bool, staged: bool)
  {
    || reportExists
    || ContractError(m, replacementId)
    || (!staged && match HeaderOf(p, target)
                   case None => false
                   case Some(t) =>
                     || (t.source.Present? && m.source != t.source)
                     || (t.kind.Present? && m.kind != t.kind))
    || (AtLeast(m.commandId, 1) && !(
          && m.commandId.value > p.state.latestCommand
          && (forall id :: id in p.commands && id >= 1 && !(staged && id == replacementId)
                           ==> id < m.commandId.value)
          && m.commandId.value != target))
    || !AtLeast(m.commandId, 1)
    || m.commandId.value != replacementId
    || m.supersedes.Absent?
    || (AtLeast(m.supersedes, 1) && (m.supersedes.value != target || m.supersedes.value >= m.commandId.value))
    || (m.expectedGeneration.Present? && m.expectedGeneration.value != p.state.generation + 1)
    || (m.basedOnReport.Present? && m.basedOnReport.value != p.state.latestReport)
  }

  predicate RepairEligible(
    p: Project, target: int, replacementId: int, m: Meta, reportExists: bool, staged: bool)
  {
    && RepairInspectionEligible(p, target)
    && !RepairReplacementError(p, target, replacementId, m, reportExists, staged)
  }

  // ------------------------------------------------------------- snapshots

  /** `same_ready_snapshot`: four fields and no active run. */
  predicate SameReadySnapshot(current: State, snapshot: State) {
    && current.status == snapshot.status
    && current.generation == snapshot.generation
    && current.latestCommand == snapshot.latestCommand
    && current.latestReport == snapshot.latestReport
    && current.activeRun.None?
  }

  /** `matches_execution_lease`, with the optional source qualifier. */
  predicate MatchesLease(s: State, runId: RunId, commandId: int, claimedGeneration: int, source: Option<Source>) {
    && commandId >= 1
    && claimedGeneration >= 0
    && s.status == CodexRunning
    && s.generation == claimedGeneration
    && s.activeRun.Some?
    && s.activeRun.value.runId == runId
    && s.activeRun.value.commandId == commandId
    && s.activeRun.value.claimedGeneration == claimedGeneration
    && (source.Some? ==> s.activeRun.value.source == source.value)
  }

  // ----------------------------------------------------------- manual start

  /** `manual_start_decision`: None refuses, Some(c) tells which command is superseded. */
  function ManualStartDecision(s: State, existing: Option<Meta>): Option<Option<int>> {
    if s.activeRun.Some? then None
    else if s.status == ReportReady then Some(None)
    else if s.status == CommandReady && existing.Some?
            && existing.value.source == Present(ScheduledChatgpt)
            && existing.value.kind == Present(Execute) then Some(Some(s.latestCommand))
    else None
  }

  /** `withdraw_and_manual_start_decision` accepts. */
  predicate WithdrawDecision(p: Project, target: int, targetMeta: Meta, replacementId: int, replacement: Option<Meta>) {
    var s := p.state;
    && s.status == CommandReady
    && s.activeRun.None?
    && target !in p.reports
    && target >= 1
    && s.latestCommand >= 1
    && target == s.latestCommand
    && s.latestCommand > s.latestReport
    && ValidPending(s, target, targetMeta)
    && targetMeta.source == Present(ManualChatgpt)
    && targetMeta.kind == Present(Execute)
    && targetMeta.supersedes.Absent?
    && targetMeta.withdraws.Absent?
    && (forall w :: w in s.withdrawnCommands ==> w.commandId != target)
    && replacementId >= 1
    && replacement.Some?
    && !ContractError(replacement.value, replacementId)
    && (forall id :: id in p.commands && id >= 1 ==> id < replacement.value.commandId.value)
    && replacement.value.source == Present(ManualChatgpt)
    && replacement.value.kind == Present(Execute)
    && replacement.value.basedOnReport == Present(s.latestReport)
    && replacement.value.expectedGeneration == Present(s.generation + 1)
    && replacement.value.withdraws == Present(target)
    && replacement.value.supersedes.Absent?
    && replacement.value.manualRequestId.Present?
  }

  /** `validate_withdrawal_record`, for the fields kept here. */
  predicate ValidWithdrawal(w: Withdrawal) {
    w.commandId >= 1 && w.replacementId > w.commandId
  }

  // ---------------------------------------------------------- final status

  datatype Outcome = Success | Partial | Blocked | FailedRun

  /** `report_status_after_execution`; `delivered` is the strict final-delivery marker. */
  function ReportStatusAfterExecution(kind: Kind, outcome: Outcome, delivered: bool): Status {
    if kind == Finalize && outcome == Success && delivered then FinalReportReady else ReportReady
  }

  // ------------------------------------- publication, claim and repair agree

  /** An idle, well-formed queue boundary whose command file is present and unreported. */
  predicate IdleBoundary(p: Project) {
    && p.state.status == CommandReady
    && p.state.activeRun.None?
    && p.state.latestCommand >= 1
    && p.state.latestCommand in p.commands
    && p.state.latestCommand !in p.reports
  }

  /** At a queue boundary, repair is open exactly when the claim validator, or the parse
      before it, rejects the command: no command is both claimable and repairable, and
      none with a header defect is neither. */
  lemma RepairOpenIffClaimRejects(p: Project)
    requires IdleBoundary(p)
    ensures var c := p.state.latestCommand;
            RepairInspectionEligible(p, c) <==>
            !(p.commands[c].header.Some? && ValidPending(p.state, c, p.commands[c].header.value))
  {
    var c := p.state.latestCommand;
    assert HeaderOf(p, c) == p.commands[c].header;
  }

  /** And nowhere else: the command in question is the one waiting at the boundary. */
  lemma RepairOpenIff(p: Project, target: int)
    ensures RepairInspectionEligible(p, target) <==>
            && IdleBoundary(p) && target == p.state.latestCommand
            && !(p.commands[target].header.Some? && ValidPending(p.state, target, p.commands[target].header.value))
  {
    if IdleBoundary(p) && target == p.state.latestCommand {
      RepairOpenIffClaimRejects(p);
    }
  }
}
