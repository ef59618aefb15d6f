/** What a landed writer leaves in the record, field by field, and what the lease and the files it
writes have to do with each other. */
module Effects {
  import opened Protocol
  import opened Operations
  import opened Runs
  import opened Safety

  /** The snapshot, if the writer read one, is of this very state. */
  ghost predicate Fresh(op: Op, p: Project) {
    op.ReadsSnapshot() ==> op.snap.state == p.state && SubMap(op.snap.commands, p.commands)
  }

  predicate MovesOn(op: Op) {
    op.Publish? || op.ManualStart? || op.Withdraw? || op.Repair? || op.Adopt? || op.PortfolioPublish? || op.ManualPriority?
  }

  predicate WritesReport(op: Op) {
    op.Complete? || op.ManualFinish? || op.Reconcile? || op.Resolve?
  }

  /** Which status each kind of commit leads to. */
  ghost predicate Statuses(op: Op, p: Project, q: Project) {
    && (q.state.status == CodexRunning <==> op.Claims())
    && (q.state.status == Finalizing <==>
          (op.Publish? && op.request.kind == Finalize)
          || (op.PortfolioPublish? && (op.plan.kind == Finalize || op.plan.source == Finalizer)))
    && (q.state.status == CommandReady <==> MovesOn(op) && !op.Claims() && q.state.status != Finalizing)
    && (q.state.status == RecoveryRequired <==>
          op.Interrupt? || ((op.Complete? || op.Reconcile?) && op.evidence.target == RecoveryRequired))
    && (q.state.status == FinalReportReady <==>
          ((op.Complete? || op.Reconcile?) && op.evidence.target == FinalReportReady)
          || (op.ManualFinish? && p.state.activeRun.Some? && p.state.activeRun.value.kind == Some(Finalize)
              && op.outcome == Success && op.delivered))
    && (q.state.status == ReportReady <==>
          WritesReport(op) && q.state.status != RecoveryRequired && q.state.status != FinalReportReady)
  }

  /** How the counters move: a claim by the manual lane is a publication and a claim at once. */
  ghost predicate Counters(op: Op, p: Project, q: Project) {
    && q.state.generation == p.state.generation + (if op.ManualStart? || op.Withdraw? then 2 else 1)
    && (if MovesOn(op) then q.state.latestCommand > p.state.latestCommand else q.state.latestCommand == p.state.latestCommand)
    && (op.Publish? || op.PortfolioPublish? ==> q.state.latestCommand == p.state.latestCommand + 1)
    && q.state.latestReport == (if WritesReport(op) then p.state.latestCommand else p.state.latestReport)
    && q.state.lastReviewedReport ==
       (if op.Publish? || op.PortfolioPublish? || op.ManualStart? || op.Withdraw? then p.state.latestReport
        else p.state.lastReviewedReport)
  }

  /** The marks beside them change for these reasons only. */
  ghost predicate Marks(op: Op, p: Project, q: Project) {
    && q.state.finalized == p.state.finalized
    && q.state.humanRequired ==
       (p.state.humanRequired && !op.Resolve? && !(op.Publish? && p.state.status == HumanRequired))
    && q.state.workerPid ==
       (op.Claim? || (p.state.workerPid && (op.Publish? || op.Repair? || op.Adopt? || op.PortfolioPublish? || op.ManualPriority?)))
    && q.state.recoveryRun ==
       (if op.Interrupt? then Some(op.runId) else if op.Resolve? then None else p.state.recoveryRun)
    && (op.Interrupt? ==> p.state.activeRun.Some? && p.state.activeRun.value.runId == op.runId)
    && q.state.recoveryNote ==
       (if op.Resolve? && op.resolution.claimGeneration >= 0
        then Some(RecoveryNote(p.state.latestCommand, op.resolution.runId, op.resolution.claimGeneration))
        else p.state.recoveryNote)
    && (q.state.activeRun.Some? <==> op.Claims())
    && |q.state.withdrawnCommands| == |p.state.withdrawnCommands| + (if op.Withdraw? then 1 else 0)
  }

  /** The files: one command file for a new command, unless it was staged... */
  ghost predicate CommandFiles(op: Op, p: Project, q: Project) {
    && q.commands.Keys == (if MovesOn(op) then p.commands.Keys + {q.state.latestCommand} else p.commands.Keys)
    && (MovesOn(op) && !op.Adopt? ==> q.state.latestCommand !in p.commands)
    && (op.Adopt? ==> q.commands == p.commands)
    && SubMap(p.commands, q.commands)
  }

  lemma PublicationFields(op: Op, p: Project, q: Project)
    requires Inv(p) && Lands(op, p, q) && Fresh(op, p) && op.Publish?
    ensures Statuses(op, p, q) && Counters(op, p, q) && Marks(op, p, q) && CommandFiles(op, p, q)
  {
  }

  lemma PortfolioFields(op: Op, p: Project, q: Project)
    requires Inv(p) && Lands(op, p, q) && Fresh(op, p) && (op.PortfolioPublish? || op.ManualPriority?)
    ensures Statuses(op, p, q) && Counters(op, p, q) && Marks(op, p, q) && CommandFiles(op, p, q)
  {
    hide PublicationPreflight, ValidPending, ValidMeta;
  }

  lemma StartFields(op: Op, p: Project, q: Project)
    requires Inv(p) && Lands(op, p, q) && Fresh(op, p) && op.ManualStart?
    ensures Statuses(op, p, q) && Counters(op, p, q) && Marks(op, p, q) && CommandFiles(op, p, q)
  {
  }

  lemma RepairFields(op: Op, p: Project, q: Project)
    requires Inv(p) && Lands(op, p, q) && Fresh(op, p) && (op.Repair? || op.Adopt?)
    ensures Statuses(op, p, q) && Counters(op, p, q) && Marks(op, p, q) && CommandFiles(op, p, q)
  {
  }

  lemma WithdrawFields(op: Op, p: Project, q: Project)
    requires Inv(p) && Lands(op, p, q) && Fresh(op, p) && op.Withdraw?
    ensures Statuses(op, p, q) && Counters(op, p, q) && Marks(op, p, q) && CommandFiles(op, p, q)
  {
  }

  lemma ReportFields(op: Op, p: Project, q: Project)
    requires Inv(p) && Lands(op, p, q) && Fresh(op, p) && WritesReport(op)
    ensures Statuses(op, p, q) && Counters(op, p, q) && Marks(op, p, q) && CommandFiles(op, p, q)
  {
  }

  lemma LeaseFields(op: Op, p: Project, q: Project)
    requires Inv(p) && Lands(op, p, q) && Fresh(op, p) && (op.Claim? || op.Interrupt?)
    ensures Statuses(op, p, q) && Counters(op, p, q) && Marks(op, p, q) && CommandFiles(op, p, q)
  {
  }

  lemma FieldsWritten(op: Op, p: Project, q: Project)
    requires Inv(p) && Lands(op, p, q) && Fresh(op, p)
    ensures Statuses(op, p, q) && Counters(op, p, q) && Marks(op, p, q) && CommandFiles(op, p, q)
  {
    hide Inv, Lands, Fresh, Statuses, Counters, Marks, CommandFiles;
    if op.Withdraw? {
      WithdrawFields(op, p, q);
    } else if op.ManualStart? {
      StartFields(op, p, q);
    } else if op.Repair? || op.Adopt? {
      RepairFields(op, p, q);
    } else if op.Publish? {
      PublicationFields(op, p, q);
    } else if MovesOn(op) {
      PortfolioFields(op, p, q);
    } else if WritesReport(op) {
      ReportFields(op, p, q);
    } else {
      LeaseFields(op, p, q);
    }
  }

  /** ...and one report for the current command, of the bytes the writer was given. */
  lemma ReportsWritten(op: Op, p: Project, q: Project)
    requires Inv(p) && Lands(op, p, q) && Fresh(op, p)
    ensures !WritesReport(op) ==> q.reports == p.reports
    ensures op.Complete? || op.Reconcile? ==> q.reports == p.reports[p.state.latestCommand := op.evidence.text]
    ensures op.ManualFinish? ==> q.reports == p.reports[p.state.latestCommand := op.report]
    ensures op.Resolve? ==> q.reports.Keys == p.reports.Keys + {p.state.latestCommand}
  {
  }

  /** The landed operation of a run is fresh, so all of this holds of every commit of a run. */
  lemma LandedIsFresh(h: seq<Project>, moves: seq<Move>, i: nat)
    requires Run(h, moves) && i < |moves| && moves[i].Act?
    ensures Inv(h[i]) && Lands(moves[i].op, h[i], h[i + 1]) && Fresh(moves[i].op, h[i])
  {
    LandedAt(h, moves, i);
    if moves[i].op.ReadsSnapshot() {
      EvidenceIsFresh(h, moves, i);
    }
  }

  // ------------------------------------------------- the lease and its command

  /** What a claim puts into the lease. */
  lemma LeaseWritten(op: Op, p: Project, q: Project)
    requires Inv(p) && Lands(op, p, q) && Fresh(op, p) && op.Claims()
    ensures q.state.activeRun.Some?
    ensures var l := q.state.activeRun.value;
            && l.commandId == q.state.latestCommand && l.claimedGeneration == q.state.generation
            && l.baseGeneration == p.state.generation && l.basedOnReport == p.state.latestReport
    ensures op.Claim? ==>
      var l := q.state.activeRun.value;
      l.runId == op.runId && l.kind == None && l.manualRequestId == None && l.withdraws == None
    ensures op.ManualStart? ==>
      var l := q.state.activeRun.value;
      && l.source == ManualChatgpt && l.kind == Some(op.kind)
      && l.manualRequestId == Some(op.requestId) && l.withdraws == None
    ensures op.Withdraw? ==>
      var l := q.state.activeRun.value;
      && l.source == ManualChatgpt && l.kind == Some(Execute)
      && l.manualRequestId == Some(op.requestId) && l.withdraws == Some(p.state.latestCommand)
  {
  }

  /** The lease says what the readable header of its command says. */
  ghost predicate LeaseAgrees(p: Project) {
    && p.state.activeRun.Some?
    && var l := p.state.activeRun.value;
    && l.commandId in p.commands
    && (p.commands[l.commandId].header.Some? ==>
          var m := p.commands[l.commandId].header.value;
          && m.commandId == Present(l.commandId)
          && m.source == Present(l.source)
          && m.basedOnReport == Present(l.basedOnReport)
          && m.kind.Present? && (l.kind.Some? ==> m.kind == Present(l.kind.value))
          && (l.manualRequestId.Some? ==> m.manualRequestId == Present(l.manualRequestId.value))
          && (l.withdraws.Some? ==> m.withdraws == Present(l.withdraws.value)))
  }

  lemma ClaimAgrees(op: Op, p: Project, q: Project)
    requires Inv(p) && Lands(op, p, q) && Fresh(op, p) && op.Claims()
    ensures LeaseAgrees(q)
  {
  }

  /** At every record of a run that still runs a command claimed in it, the lease agrees with
      the command's file. */
  lemma LeaseAgreesWithCommand(h: seq<Project>, moves: seq<Move>, k: nat, i: nat)
    requires Run(h, moves) && k < i < |h| && moves[k].Act? && moves[k].op.Claims()
    requires h[i].state.status == CodexRunning && h[i].state.latestCommand == h[k + 1].state.latestCommand
    ensures LeaseAgrees(h[i])
  {
    LandedIsFresh(h, moves, k);
    hide Inv, Lands, LeaseAgrees, Fresh;
    ClaimAgrees(moves[k].op, h[k], h[k + 1]);
    FieldsWritten(moves[k].op, h[k], h[k + 1]);
    OneLeasePerCommand(h, moves, k + 1, i);
    AppendOnly(h, moves, k + 1, i);
    AgreementStays(h[k + 1], h[i]);
  }

  lemma AgreementStays(p: Project, q: Project)
    requires LeaseAgrees(p) && q.state == p.state && SubMap(p.commands, q.commands)
    ensures LeaseAgrees(q)
  {
  }

  // ------------------------------------------------------ withdrawals are true

  /** The record of a withdrawal names the manual command that was withdrawn, by its exact
      bytes, and the command that replaced it, whose header says so. */
  ghost predicate TrueWithdrawal(p: Project, w: Withdrawal) {
    && w.commandId in p.commands && p.commands[w.commandId] == w.command
    && w.command.header.Some?
    && w.command.header.value.source == Present(ManualChatgpt) == Present(w.source)
    && w.command.header.value.kind == Present(Execute) == Present(w.kind)
    && w.replacementId > w.commandId && w.replacementId in p.commands
    && p.commands[w.replacementId].header.Some?
    && p.commands[w.replacementId].header.value.withdraws == Present(w.commandId)
  }

  lemma WithdrawsTruly(op: Op, p: Project, q: Project)
    requires Inv(p) && Lands(op, p, q) && Fresh(op, p) && op.Withdraw?
    ensures |q.state.withdrawnCommands| == |p.state.withdrawnCommands| + 1
    ensures var w := q.state.withdrawnCommands[|p.state.withdrawnCommands|];
            TrueWithdrawal(q, w) && w.commandId == p.state.latestCommand && w.replacementId == q.state.latestCommand
  {
  }

  lemma TruthStays(p: Project, q: Project, w: Withdrawal)
    requires TrueWithdrawal(p, w) && SubMap(p.commands, q.commands)
    ensures TrueWithdrawal(q, w)
  {
  }

  /** Every withdrawal made in a run is truly recorded ever after. */
  lemma {:induction false} WithdrawalsAreTrue(h: seq<Project>, moves: seq<Move>, n: nat, i: nat)
    requires Run(h, moves) && n < |h| && |h[0].state.withdrawnCommands| <= i < |h[n].state.withdrawnCommands|
    ensures TrueWithdrawal(h[n], h[n].state.withdrawnCommands[i])
    decreases n
  {
    if n > 0 {
      AppendOnly(h, moves, n - 1, n);
      assert StepAt(h, moves, n - 1);
      if i < |h[n - 1].state.withdrawnCommands| {
        WithdrawalsAreTrue(h, moves, n - 1, i);
        TruthStays(h[n - 1], h[n], h[n].state.withdrawnCommands[i]);
      } else {
        LandedIsFresh(h, moves, n - 1);
        hide Inv, Lands, Fresh, Run, TrueWithdrawal;
        FieldsWritten(moves[n - 1].op, h[n - 1], h[n]);
        WithdrawsTruly(moves[n - 1].op, h[n - 1], h[n]);
      }
    }
  }

  // ----------------------------------------------------- what a record admits

  /** A staged request is open exactly for the next command of an idle record, or of one waiting
      for the owner and answered, beyond every command file. */
  lemma PublishIff(p: Project, r: Request, ownerEvidence: bool)
    requires Inv(p)
    ensures (exists q :: Lands(Publish(p, r, ownerEvidence), p, q)) <==>
            && ValidRequest(r) && r.command.phasedBodyParses
            && r.commandId == p.state.latestCommand + 1 && r.basedOnReport == p.state.latestReport
            && r.expectedGeneration == p.state.generation + 1
            && (p.state.status == ReportReady
                || (p.state.status == HumanRequired && p.state.humanRequired && ownerEvidence
                    && r.source == ScheduledChatgpt && r.kind == Execute))
            && forall id :: id in p.commands ==> id < r.commandId
  {
    var op := Publish(p, r, ownerEvidence);
    if Prepared(op) && Expected(op, p) {
      assert Build(op, p).Some? && Lands(op, p, Build(op, p).value);
    }
  }

  /** The portfolio publisher is open on every record without a waiting ordinary command or a
      lease, for a complete plan whose kind is FINALIZE exactly if its source is the finalizer. */
  lemma PortfolioIff(p: Project, plan: Plan)
    requires Inv(p)
    ensures (exists q :: Lands(PortfolioPublish(p, plan), p, q)) <==>
            && p.state.status != CommandReady && p.state.status != CodexRunning
            && p.state.latestCommand + 1 !in p.commands
            && plan.headerParses && plan.bodyParses && plan.executorValid
            && (plan.kind == Finalize <==> plan.source == Finalizer)
  {
    var op := PortfolioPublish(p, plan);
    if Prepared(op) && Expected(op, p) && Build(op, p).Some? {
      assert Lands(op, p, Build(op, p).value);
    }
  }

  /** A claim is open exactly over a waiting, unreported command whose header is complete, well
      formed and bound to this very record, and whose phased body parses. */
  lemma ClaimIff(p: Project, nonce: nat)
    requires Inv(p)
    ensures (exists op: Op, q: Project :: op.Claim? && op.snap == p && op.runId == WorkerRun(p.state.latestCommand, nonce)
                                          && Lands(op, p, q)) <==>
            var c := p.state.latestCommand;
            && (p.state.status == CommandReady || p.state.status == Finalizing)
            && c > p.state.latestReport && c in p.commands && c !in p.reports
            && p.commands[c].phasedBodyParses
            && p.commands[c].header.Some?
            && var m := p.commands[c].header.value;
            && m.commandId == Present(c as int) && m.basedOnReport == Present(p.state.latestReport as int)
            && p.state.generation >= 1 && m.expectedGeneration == Present(p.state.generation as int)
            && m.source.Present? && m.kind.Present? && m.executorValid && !m.unknownFields && !m.manualRequestId.Malformed?
            && (m.supersedes.Absent? || (m.supersedes.Present? && m.supersedes.value >= 1))
            && (m.withdraws.Absent? || (m.supersedes.Absent? && m.withdraws.Present? && m.withdraws.value >= 1))
  {
    var op := Claim(p, WorkerRun(p.state.latestCommand, nonce));
    if Prepared(op) && Expected(op, p) {
      assert Build(op, p).Some? && Lands(op, p, Build(op, p).value);
    }
  }

  /** The lease is that of this run, command and generation, and of this source if one is named. */
  predicate IsLeaseOf(s: State, runId: RunId, commandId: int, claimGeneration: int, source: Option<Source>) {
    && s.status == CodexRunning
    && s.activeRun.Some?
    && s.activeRun.value.runId == runId
    && s.activeRun.value.commandId == commandId
    && s.activeRun.value.claimedGeneration == claimGeneration
    && (source == None || source == Some(s.activeRun.value.source))
  }

  /** A run can complete, finish, be interrupted or be reconciled exactly while the record
      holds its own lease; reconciliation asks for an unbroken line of reports besides. */
  lemma CompletionIff(p: Project, e: Evidence)
    requires Inv(p) && ReportTarget(e.target)
    ensures (exists q :: Lands(Complete(e), p, q)) <==>
            IsLeaseOf(p.state, e.runId, e.commandId, e.claimGeneration, Some(e.source))
    ensures (exists q :: Lands(Reconcile(p, e), p, q)) <==>
            && IsLeaseOf(p.state, e.runId, e.commandId, e.claimGeneration, Some(e.source))
            && p.state.latestReport == e.commandId - 1
  {
    var op := Complete(e);
    if Expected(op, p) {
      assert Build(op, p).Some? && Lands(op, p, Build(op, p).value);
    }
    var late := Reconcile(p, e);
    if Prepared(late) && Expected(late, p) {
      assert Build(late, p).Some? && Lands(late, p, Build(late, p).value);
    }
  }

  lemma FinishIff(p: Project, runId: RunId, command: int, generation: int, outcome: Outcome, delivered: bool, report: Report)
    requires Inv(p)
    ensures (exists q :: Lands(ManualFinish(p, runId, command, generation, outcome, delivered, report), p, q)) <==>
            IsLeaseOf(p.state, runId, command, generation, Some(ManualChatgpt))
  {
    var op := ManualFinish(p, runId, command, generation, outcome, delivered, report);
    if Prepared(op) && Expected(op, p) {
      assert Build(op, p).Some? && Lands(op, p, Build(op, p).value);
    }
  }

  lemma InterruptIff(p: Project, runId: RunId, command: int, generation: int, source: Option<Source>, typed: bool)
    requires Inv(p)
    ensures (exists q :: Lands(Interrupt(runId, command, generation, source, typed), p, q)) <==>
            IsLeaseOf(p.state, runId, command, generation, source)
  {
    var op := Interrupt(runId, command, generation, source, typed);
    if Expected(op, p) {
      assert Build(op, p).Some? && Lands(op, p, Build(op, p).value);
    }
  }

  /** A manual start is open exactly on an idle record, or, for an ordinary command, over a
      waiting scheduled one whose header is valid. */
  lemma ManualStartIff(p: Project, kind: Kind)
    requires Inv(p)
    ensures (exists op: Op, q: Project :: op.ManualStart? && op.snap == p && op.kind == kind && Lands(op, p, q)) <==>
            || p.state.status == ReportReady
            || (p.state.status == CommandReady && kind == Execute
                && p.commands[p.state.latestCommand].header.Some?
                && ValidMeta(p.commands[p.state.latestCommand].header.value)
                && p.commands[p.state.latestCommand].header.value.source == Present(ScheduledChatgpt)
                && p.commands[p.state.latestCommand].header.value.kind == Present(Execute))
  {
    var op := ManualStart(p, 0, kind, true, true, 0);
    if Prepared(op) && Expected(op, p) {
      assert Build(op, p).Some? && Lands(op, p, Build(op, p).value);
    }
  }

  /** A manual priority command is open exactly over a waiting scheduled command that the
      worker would accept as it is, and that is nobody's replacement. */
  lemma ManualPriorityIff(p: Project)
    requires Inv(p)
    ensures (exists op: Op, q: Project :: op.ManualPriority? && op.snap == p && Lands(op, p, q)) <==>
            && p.state.status == CommandReady && OfferedIsValid(p)
            && var m := p.commands[p.state.latestCommand].header.value;
            && m.source == Present(ScheduledChatgpt) && m.kind == Present(Execute)
            && m.manualRequestId.Absent? && m.supersedes.Absent?
  {
    var op := ManualPriority(p, Plan(Execute, ManualChatgpt, true, Some(0), true, true, 0));
    if Prepared(op) && Expected(op, p) {
      assert Build(op, p).Some? && Lands(op, p, Build(op, p).value);
    }
  }

  /** A withdrawal is open exactly over a waiting manual command that the worker would accept
      and that neither replaces nor withdraws another. */
  lemma WithdrawIff(p: Project)
    requires Inv(p) && forall w :: w in p.state.withdrawnCommands ==> ValidWithdrawal(w)
    ensures (exists op: Op, q: Project :: op.Withdraw? && op.snap == p && Lands(op, p, q)) <==>
            && p.state.status == CommandReady && OfferedIsValid(p)
            && var m := p.commands[p.state.latestCommand].header.value;
            && m.source == Present(ManualChatgpt) && m.kind == Present(Execute)
            && m.supersedes.Absent? && m.withdraws.Absent?
  {
    if p.state.status == CommandReady && OfferedIsValid(p) {
      var m := p.commands[p.state.latestCommand].header.value;
      if m.source == Present(ManualChatgpt) && m.kind == Present(Execute) && m.supersedes.Absent? && m.withdraws.Absent? {
        var op := Withdraw(p, p.state.latestCommand, 0, true, true, 0);
        var q := WithdrawStep(op, p);
      }
    }
  }

  /** The replacement is bound to this record and to the command it replaces, and comes after
      every other command file. */
  predicate Replaces(p: Project, target: int, id: int, c: Command) {
    && c.header.Some? && ValidMeta(c.header.value)
    && c.header.value.commandId == Present(id)
    && c.header.value.supersedes == Present(target)
    && c.header.value.expectedGeneration == Present(p.state.generation + 1)
    && c.header.value.basedOnReport == Present(p.state.latestReport as int)
    && id > p.state.latestCommand && forall other :: other in p.commands && other != id ==> other < id
  }

  /** A repair is open exactly over a waiting command that the worker cannot claim for its header,
      for a well-formed replacement of what can be read of its source and kind. */
  lemma RepairIff(p: Project, target: int, id: int, c: Command)
    requires Inv(p)
    ensures (exists q :: Lands(Repair(p, target, id, c), p, q)) <==>
            && IdleBoundary(p) && target == p.state.latestCommand && !OfferedIsValid(p)
            && Replaces(p, target, id, c) && id !in p.commands
            && (p.commands[target].header.Some? ==>
                  var was, now := p.commands[target].header.value, c.header.value;
                  && (was.source.Present? ==> now.source == was.source)
                  && (was.kind.Present? ==> now.kind == was.kind))
  {
    RepairOpenIff(p, target);
    var op := Repair(p, target, id, c);
    hide RepairInspectionEligible;
    if Prepared(op) && Expected(op, p) && id !in p.commands {
      assert Build(op, p).Some? && Lands(op, p, Build(op, p).value);
    }
  }

  /** An adoption is open exactly there, for a replacement that is already on file, of any kind. */
  lemma AdoptIff(p: Project, target: int, id: int)
    requires Inv(p)
    ensures (exists q :: Lands(Adopt(p, target, id), p, q)) <==>
            && IdleBoundary(p) && target == p.state.latestCommand && !OfferedIsValid(p)
            && id in p.commands && Replaces(p, target, id, p.commands[id])
  {
    RepairOpenIff(p, target);
    var op := Adopt(p, target, id);
    hide RepairInspectionEligible;
    if Prepared(op) && Expected(op, p) {
      assert Build(op, p).Some? && Lands(op, p, Build(op, p).value);
    }
  }

  /** A repair keeps what can be read of the command it replaces: its source and its kind. */
  lemma RepairKeepsKind(op: Op, p: Project, q: Project)
    requires Inv(p) && Lands(op, p, q) && op.Repair? && p.commands[p.state.latestCommand].header.Some?
    ensures q.commands[q.state.latestCommand].header.Some?
    ensures var was, now := p.commands[p.state.latestCommand].header.value, q.commands[q.state.latestCommand].header.value;
            && (was.source.Present? ==> now.source == was.source)
            && (was.kind.Present? ==> now.kind == was.kind)
  {
  }

  // ------------------------------------------------------------ a manual cycle

  /** From any idle record, whatever files are staged above it, a manual start of either kind
      and its finish bring the project back: to FINAL_REPORT_READY exactly for a delivered,
      successful FINALIZE, else to REPORT_READY. */
  lemma ManualCycle(p: Project, request: RequestId, kind: Kind, outcome: Outcome, delivered: bool, text: nat, report: Report)
    returns (h: seq<Project>, moves: seq<Move>)
    requires Inv(p) && p.state.status == ReportReady
    ensures Run(h, moves) && |moves| == 2 && h[0] == p
    ensures moves[0].Act? && moves[0].op.ManualStart? && moves[0].op.kind == kind && moves[1].Act? && moves[1].op.ManualFinish?
    ensures var id := h[1].state.latestCommand;
            && (forall c :: c in p.commands ==> c < id) && p.state.latestCommand < id
            && h[1].state.status == CodexRunning && h[1].state.generation == p.state.generation + 2
            && LeaseAgrees(h[1]) && id in h[1].commands && h[1].commands[id].header.Some?
            && h[1].commands[id].header.value.kind == Present(kind)
            && h[2].commands == h[1].commands && h[2].reports == p.reports[id := report]
            && h[2].state == State(if kind == Finalize && outcome == Success && delivered then FinalReportReady else ReportReady,
                                   p.state.generation + 3, id, id, p.state.latestReport, None, p.state.withdrawnCommands,
                                   p.state.humanRequired, p.state.finalized, false, p.state.recoveryRun, p.state.recoveryNote)
  {
    var start := ManualStart(p, request, kind, true, true, text);
    var q := StartStep(start, p);
    var finish := ManualFinish(q, q.state.activeRun.value.runId, q.state.latestCommand, q.state.generation, outcome, delivered, report);
    var r := FinishStep(finish, q);
    h, moves := ([p] + [q]) + [r], ([] + [Act(start)]) + [Act(finish)];
    hide Lands, LeaseAgrees, Inv;
    assert Run([p], []);
    hide Run;
    RunExtends([p], [], Act(start), q);
    RunExtends([p] + [q], [] + [Act(start)], Act(finish), r);
  }

  lemma StartStep(op: Op, p: Project) returns (q: Project)
    requires Inv(p) && p.state.status == ReportReady && op.ManualStart? && op.snap == p && op.headerParses
    ensures Lands(op, p, q) && Inv(q) && LeaseAgrees(q) && q.reports == p.reports
    ensures var id := q.state.latestCommand;
            && (forall c :: c in p.commands ==> c < id) && p.state.latestCommand < id
            && id in q.commands && q.commands[id].header.Some? && q.commands[id].header.value.kind == Present(op.kind)
            && id !in q.reports
    ensures q.state.activeRun.Some? && q.state.activeRun.value.kind == Some(op.kind)
    ensures MatchesLease(q.state, q.state.activeRun.value.runId, q.state.latestCommand, q.state.generation, Some(ManualChatgpt))
    ensures q.state == State(CodexRunning, p.state.generation + 2, q.state.latestCommand, p.state.latestReport, p.state.latestReport,
                             q.state.activeRun, p.state.withdrawnCommands, p.state.humanRequired, p.state.finalized, false,
                             p.state.recoveryRun, p.state.recoveryNote)
  {
    q := Build(op, p).value;
    assert Lands(op, p, q);
    CommandKeepsInv(op, p, q);
    ClaimAgrees(op, p, q);
  }

  lemma FinishStep(op: Op, p: Project) returns (q: Project)
    requires Inv(p) && op.ManualFinish? && op.snap == p && op.commandId == p.state.latestCommand && op.commandId !in p.reports
    requires MatchesLease(p.state, op.runId, op.commandId, op.claimGeneration, Some(ManualChatgpt))
    requires p.state.activeRun.Some? && p.state.activeRun.value.kind.Some?
    ensures Lands(op, p, q) && q.commands == p.commands && q.reports == p.reports[op.commandId := op.report]
    ensures q.state == State(if p.state.activeRun.value.kind.value == Finalize && op.outcome == Success && op.delivered
                             then FinalReportReady else ReportReady,
                             p.state.generation + 1, p.state.latestCommand, p.state.latestCommand, p.state.lastReviewedReport,
                             None, p.state.withdrawnCommands, p.state.humanRequired, p.state.finalized, false,
                             p.state.recoveryRun, p.state.recoveryNote)
  {
    q := Build(op, p).value;
  }
}
