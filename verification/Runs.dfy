/** Runs of one project: the sequence of records its commits leave on the shared branch.

Every commit is another project's (a stutter), a command file staged by hand, or one
canonical operation whose evidence was read at some earlier point of the same run. */
module Runs {
  import opened Protocol
  import opened Operations

  datatype Move = Elsewhere | Stage(id: int, command: Command) | Act(op: Op)

  /** What every reachable record satisfies. */
  ghost predicate Inv(p: Project) {
    var s := p.state;
    && (s.activeRun.Some? <==> s.status == CodexRunning)
    && (s.activeRun.Some? ==> s.activeRun.value.claimedGeneration == s.generation
                              && s.activeRun.value.commandId == s.latestCommand
                              && s.activeRun.value.runId.command == s.latestCommand
                              && (s.activeRun.value.manualRequestId.Some? ==>
                                    s.activeRun.value.runId
                                    == ManualRun(s.latestCommand, s.activeRun.value.manualRequestId.value)))
    && s.latestReport <= s.latestCommand
    && (Pending(s.status) || s.status == CodexRunning ==> s.latestReport < s.latestCommand)
    && (s.status == ReportReady || s.status == FinalReportReady || s.status == HumanRequired
        ==> s.latestReport == s.latestCommand)
    && (forall r :: r in p.reports ==> 1 <= r <= s.latestReport)
    && (s.latestReport > 0 ==> s.latestReport in p.reports)
    && (s.latestCommand > 0 ==> s.latestCommand in p.commands)
    && (forall i :: 0 <= i < |s.withdrawnCommands| ==> WithdrawnBelow(p, s.withdrawnCommands[i].commandId))
    && (forall i, j :: 0 <= i < j < |s.withdrawnCommands|
                       ==> s.withdrawnCommands[i].commandId != s.withdrawnCommands[j].commandId)
  }

  ghost predicate WithdrawnBelow(p: Project, id: int) {
    1 <= id < p.state.latestCommand && id !in p.reports
  }

  /** The move takes the last record of `h` to `q`. */
  ghost predicate Applies(h: seq<Project>, move: Move, q: Project)
    requires h != []
  {
    var p := h[|h| - 1];
    match move
    case Elsewhere => q == p
    case Stage(id, c) => id !in p.commands && q == p.(commands := p.commands[id := c])
    case Act(op) =>
      && (op.ReadsSnapshot() ==> op.snap in h)
      && Lands(op, p, q)
  }

  /** `publish_cas` commits: not already applied, still expected, and the payload builds. */
  predicate Lands(op: Op, p: Project, q: Project) {
    && Prepared(op)
    && !Already(op, p)
    && Expected(op, p)
    && Build(op, p) == Some(q)
  }

  ghost predicate StepAt(h: seq<Project>, moves: seq<Move>, i: nat)
    requires |h| == |moves| + 1 && i < |moves|
  {
    Applies(h[..i + 1], moves[i], h[i + 1])
  }

  ghost predicate Run(h: seq<Project>, moves: seq<Move>) {
    && |h| == |moves| + 1
    && Inv(h[0])
    && forall i :: 0 <= i < |moves| ==> StepAt(h, moves, i)
  }

  // ------------------------------------------------------------- one step

  ghost predicate SubMap<K, V>(a: map<K, V>, b: map<K, V>) {
    forall k :: k in a ==> k in b && b[k] == a[k]
  }

  /** What one step may do to a record; everything about runs follows from this alone. */
  ghost predicate Progress(p: Project, q: Project) {
    var s, t := p.state, q.state;
    && s.generation <= t.generation <= s.generation + 2
    && (s.generation == t.generation ==> s == t && p.reports == q.reports)
    && SubMap(p.commands, q.commands)
    && SubMap(p.reports, q.reports)
    && s.latestCommand <= t.latestCommand
    && s.latestReport <= t.latestReport
    && s.withdrawnCommands <= t.withdrawnCommands
    // a report or a withdrawal only ever concerns the command that was current
    && (forall r :: r in q.reports && r !in p.reports ==> r == s.latestCommand && r == t.latestCommand)
    && (t.withdrawnCommands != s.withdrawnCommands ==>
          && Pending(s.status) && t.latestCommand > s.latestCommand
          && |t.withdrawnCommands| == |s.withdrawnCommands| + 1
          && t.withdrawnCommands[|s.withdrawnCommands|].commandId == s.latestCommand)
    // becoming pending, or running under another lease, moves to a new command or claims the pending one
    && (Pending(t.status) && t.generation > s.generation ==> t.latestCommand > s.latestCommand)
    && (t.status == CodexRunning && t.generation > s.generation ==>
          t.latestCommand > s.latestCommand || (t.latestCommand == s.latestCommand && Pending(s.status)))
  }

  lemma LandsKeepsInv(op: Op, p: Project, q: Project)
    requires Inv(p) && Lands(op, p, q)
    ensures Inv(q) && Progress(p, q) && q.state.generation > p.state.generation
  {
    if op.Complete? || op.ManualFinish? || op.Reconcile? || op.Resolve? {
      ReportKeepsInv(op, p, q);
    } else if op.Withdraw? {
      WithdrawKeepsInv(op, p, q);
    } else if op.Claim? || op.Interrupt? {
      LeaseKeepsInv(op, p, q);
    } else if op.PortfolioPublish? || op.ManualPriority? {
      PortfolioKeepsInv(op, p, q);
    } else {
      CommandKeepsInv(op, p, q);
    }
    hide Inv, Lands, Progress;
  }

  lemma WithdrawKeepsInv(op: Op, p: Project, q: Project)
    requires Inv(p) && Lands(op, p, q) && op.Withdraw?
    ensures Inv(q) && Progress(p, q) && q.state.generation > p.state.generation
  {
    assert q.state.withdrawnCommands == p.state.withdrawnCommands + [WithdrawalRecord(op)];
  }

  /** Taking and losing a lease leaves commands and reports alone. */
  lemma LeaseKeepsInv(op: Op, p: Project, q: Project)
    requires Inv(p) && Lands(op, p, q) && (op.Claim? || op.Interrupt?)
    ensures Inv(q) && Progress(p, q) && q.state.generation > p.state.generation
  {
    assert q.state.withdrawnCommands == p.state.withdrawnCommands;
    assert q.reports == p.reports && q.commands == p.commands;
  }

  /** The writers that move to a new command. */
  lemma CommandKeepsInv(op: Op, p: Project, q: Project)
    requires Inv(p) && Lands(op, p, q) && (op.Publish? || op.ManualStart? || op.Repair? || op.Adopt?)
    ensures Inv(q) && Progress(p, q) && q.state.generation > p.state.generation
  {
    assert q.state.withdrawnCommands == p.state.withdrawnCommands;
    assert q.reports == p.reports;
  }

  lemma PortfolioKeepsInv(op: Op, p: Project, q: Project)
    requires Inv(p) && Lands(op, p, q) && (op.PortfolioPublish? || op.ManualPriority?)
    ensures Inv(q) && Progress(p, q) && q.state.generation > p.state.generation
  {
    assert q.state.withdrawnCommands == p.state.withdrawnCommands;
    assert q.reports == p.reports;
  }

  /** The four writers of reports. */
  lemma ReportKeepsInv(op: Op, p: Project, q: Project)
    requires Inv(p) && Lands(op, p, q)
    requires op.Complete? || op.ManualFinish? || op.Reconcile? || op.Resolve?
    ensures Inv(q) && Progress(p, q) && q.state.generation > p.state.generation
  {
    assert q.state.withdrawnCommands == p.state.withdrawnCommands;
    assert q.commands == p.commands;
  }

  lemma StepProgress(h: seq<Project>, move: Move, q: Project)
    requires h != [] && Inv(h[|h| - 1]) && Applies(h, move, q)
    ensures Inv(q) && Progress(h[|h| - 1], q)
  {
    if move.Act? {
      LandsKeepsInv(move.op, h[|h| - 1], q);
    }
  }

  // ------------------------------------------------------------ whole runs

  lemma {:induction false} Reachable(h: seq<Project>, moves: seq<Move>, i: nat)
    requires Run(h, moves) && i < |h|
    ensures Inv(h[i])
    ensures i < |moves| ==> Progress(h[i], h[i + 1])
    decreases i
  {
    hide Inv, Applies, Progress;
    if i > 0 {
      Reachable(h, moves, i - 1);
      assert StepAt(h, moves, i - 1);
      StepProgress(h[..i], moves[i - 1], h[i]);
    }
    if i < |moves| {
      assert StepAt(h, moves, i);
      StepProgress(h[..i + 1], moves[i], h[i + 1]);
    }
  }

  /** Everything an earlier record and a later one of the same run have in common. */
  ghost predicate Later(p: Project, q: Project) {
    && p.state.generation <= q.state.generation
    && (p.state.generation == q.state.generation ==> p.state == q.state && p.reports == q.reports)
    && SubMap(p.commands, q.commands)
    && SubMap(p.reports, q.reports)
    && p.state.latestCommand <= q.state.latestCommand
    && p.state.latestReport <= q.state.latestReport
    && p.state.withdrawnCommands <= q.state.withdrawnCommands
  }

  /** Commands, reports and withdrawals are append-only over every run, ids never go back,
      and two records of one run with the same generation are the same record, up to
      command files staged in between. */
  lemma {:induction false} AppendOnly(h: seq<Project>, moves: seq<Move>, i: nat, j: nat)
    requires Run(h, moves) && i <= j < |h|
    ensures Later(h[i], h[j])
    decreases j
  {
    if i < j {
      AppendOnly(h, moves, i, j - 1);
      Reachable(h, moves, j - 1);
    }
  }

  // ------------------------------------------------- generations and leases

  /** `same_ready_snapshot` compares four fields; within a run they pin the whole state. */
  lemma SnapshotPinsState(h: seq<Project>, moves: seq<Move>, i: nat, j: nat)
    requires Run(h, moves) && i < |h| && j < |h|
    requires SameReadySnapshot(h[j].state, h[i].state)
    ensures h[i].state == h[j].state && h[i].reports == h[j].reports
    ensures forall k :: i <= k <= j ==> h[k].state == h[i].state
  {
    AppendOnly(h, moves, if i <= j then i else j, if i <= j then j else i);
    forall k | i <= k <= j ensures h[k].state == h[i].state {
      AppendOnly(h, moves, i, k);
      AppendOnly(h, moves, k, j);
    }
  }

  /** A lease identity matches exactly one canonical state, and once lost never matches again. */
  lemma LeaseMatchesOneState(
    h: seq<Project>, moves: seq<Move>, i: nat, j: nat, runId: RunId, c: int, g: int, source: Option<Source>)
    requires Run(h, moves) && i <= j < |h|
    requires MatchesLease(h[i].state, runId, c, g, source) && MatchesLease(h[j].state, runId, c, g, source)
    ensures forall k :: i <= k <= j ==> h[k].state == h[i].state && h[k].reports == h[i].reports
  {
    forall k | i <= k <= j ensures h[k].state == h[i].state && h[k].reports == h[i].reports {
      AppendOnly(h, moves, i, k);
      AppendOnly(h, moves, k, j);
    }
  }

  /** The commit of an operation, free of the run around it. */
  lemma LandedAt(h: seq<Project>, moves: seq<Move>, i: nat)
    requires Run(h, moves) && i < |moves| && moves[i].Act?
    ensures Inv(h[i]) && Lands(moves[i].op, h[i], h[i + 1]) && Inv(h[i + 1])
    ensures h[i + 1].state.generation > h[i].state.generation
  {
    Reachable(h, moves, i);
    assert StepAt(h, moves, i);
    hide Run, Inv, Lands, Progress;
    assert h[..i + 1][|h[..i + 1]| - 1] == h[i];
    LandsKeepsInv(moves[i].op, h[i], h[i + 1]);
  }

  /** Every operation that lands was prepared from the very record it lands on: its snapshot
      is some earlier record of the run, and by its CAS guard that record is still current. */
  lemma EvidenceIsFresh(h: seq<Project>, moves: seq<Move>, i: nat)
    requires Run(h, moves) && i < |moves| && moves[i].Act? && moves[i].op.ReadsSnapshot()
    ensures moves[i].op.snap.state == h[i].state
    ensures moves[i].op.snap.reports == h[i].reports
    ensures SubMap(moves[i].op.snap.commands, h[i].commands)
  {
    var op := moves[i].op;
    LandedAt(h, moves, i);
    assert StepAt(h, moves, i);
    var j :| 0 <= j < i + 1 && h[j] == op.snap;
    AppendOnly(h, moves, j, i);
    assert op.snap.state.generation == h[i].state.generation;
  }
}
