/** What the protocol promises over whole runs: a command is claimed at most once, every
command that was ever current is accounted for exactly once, and what is offered to a
worker is what the worker accepts. */
module Safety {
  import opened Protocol
  import opened Operations
  import opened Runs

  // ------------------------------------------------------- at most one claim

  /** Commit `i` hands out an execution lease. */
  ghost predicate IsClaim(h: seq<Project>, i: nat)
    requires i + 1 < |h|
  {
    h[i + 1].state.status == CodexRunning && h[i + 1].state.activeRun != h[i].state.activeRun
  }

  /** The command can no longer be offered: it was taken, resolved or passed over. */
  ghost predicate Spent(p: Project, c: int) {
    p.state.latestCommand > c || (p.state.latestCommand == c && !Pending(p.state.status))
  }

  lemma {:induction false} SpentForever(h: seq<Project>, moves: seq<Move>, i: nat, j: nat, c: int)
    requires Run(h, moves) && i <= j < |h| && Spent(h[i], c)
    ensures Spent(h[j], c)
    decreases j
  {
    if i < j {
      SpentForever(h, moves, i, j - 1, c);
      Reachable(h, moves, j - 1);
    }
  }

  /** The central promise: claims of one project never repeat a command, in any run. */
  lemma ClaimedAtMostOnce(h: seq<Project>, moves: seq<Move>, i: nat, j: nat)
    requires Run(h, moves) && i < j && j + 1 < |h| && IsClaim(h, i) && IsClaim(h, j)
    ensures h[i + 1].state.latestCommand < h[j + 1].state.latestCommand
  {
    SpentForever(h, moves, i + 1, j, h[i + 1].state.latestCommand);
    Reachable(h, moves, j);
  }

  /** All running records of one command carry the same lease and generation. */
  lemma {:induction false} OneLeasePerCommand(h: seq<Project>, moves: seq<Move>, i: nat, j: nat)
    requires Run(h, moves) && i <= j < |h|
    requires h[i].state.status == CodexRunning && h[j].state.status == CodexRunning
    requires h[i].state.latestCommand == h[j].state.latestCommand
    ensures h[i].state == h[j].state
    decreases j
  {
    if i < j {
      AppendOnly(h, moves, i, j - 1);
      AppendOnly(h, moves, j - 1, j);
      SpentForever(h, moves, i, j - 1, h[i].state.latestCommand);
      Reachable(h, moves, j - 1);
      OneLeasePerCommand(h, moves, i, j - 1);
    }
  }

  /** While a command waits to be claimed, it has never run before. */
  lemma PendingHasNeverRun(h: seq<Project>, moves: seq<Move>, i: nat, k: nat)
    requires Run(h, moves) && i <= k < |h|
    requires Pending(h[k].state.status)
    ensures !(h[i].state.status == CodexRunning && h[i].state.latestCommand == h[k].state.latestCommand)
  {
    if h[i].state.status == CodexRunning && h[i].state.latestCommand == h[k].state.latestCommand {
      SpentForever(h, moves, i, k, h[k].state.latestCommand);
    }
  }

  // --------------------------------------------------------- withdrawn, never run

  ghost predicate Withdrawn(p: Project, c: int) {
    exists w :: 0 <= w < |p.state.withdrawnCommands| && p.state.withdrawnCommands[w].commandId == c
  }

  /** A withdrawn command has no claim and no report at any point of the run, before or
      after its withdrawal. */
  lemma {:induction false} WithdrawnNeverRan(h: seq<Project>, moves: seq<Move>, n: nat, i: nat, c: int)
    requires Run(h, moves) && n < |h| && i < |h| && Withdrawn(h[n], c)
    ensures c !in h[i].reports
    ensures h[i].state.activeRun.Some? ==> h[i].state.activeRun.value.commandId != c
    decreases n
  {
    Reachable(h, moves, n);
    Reachable(h, moves, i);
    if n > 0 && Withdrawn(h[n - 1], c) {
      WithdrawnNeverRan(h, moves, n - 1, i, c);
    } else if i <= n {
      AppendOnly(h, moves, i, n);
      if n > 0 {
        Reachable(h, moves, n - 1);
        if i < n {
          PendingHasNeverRun(h, moves, i, n - 1);
        }
      }
    } else {
      AppendOnly(h, moves, n, i);
      WithdrawnStays(h[n], h[i], c);
    }
  }

  lemma WithdrawnStays(p: Project, q: Project, c: int)
    requires Withdrawn(p, c) && Later(p, q)
    ensures Withdrawn(q, c)
  {
    var w :| 0 <= w < |p.state.withdrawnCommands| && p.state.withdrawnCommands[w].commandId == c;
    assert q.state.withdrawnCommands[w].commandId == c;
  }

  // ------------------------------------------------------ conservation of commands

  ghost predicate EverCurrent(h: seq<Project>, c: int) {
    c > 0 && exists i :: 0 <= i < |h| && h[i].state.latestCommand == c
  }

  /** How a commit may leave the current command behind, unreported and not withdrawn. */
  datatype Leaving = Replacement | Overtaking

  /** Commit `k` replaces the pending command by another without withdrawing it. */
  ghost predicate Replaces(h: seq<Project>, moves: seq<Move>, k: nat, c: int)
    requires |h| == |moves| + 1 && k < |moves|
  {
    && moves[k].Act?
    && Replacing(moves[k].op)
    && h[k].state.status == CommandReady
    && h[k].state.latestCommand == c
  }

  /** Commit `k` is a portfolio publication made while the current command has no report. */
  ghost predicate Overtakes(h: seq<Project>, moves: seq<Move>, k: nat, c: int)
    requires |h| == |moves| + 1 && k < |moves|
  {
    && moves[k].Act?
    && moves[k].op.PortfolioPublish?
    && h[k].state.latestCommand == c
    && c !in h[k].reports
  }

  ghost predicate Leaves(h: seq<Project>, moves: seq<Move>, k: nat, c: int, how: Leaving)
    requires |h| == |moves| + 1 && k < |moves|
  {
    match how
    case Replacement => Replaces(h, moves, k, c)
    case Overtaking => Overtakes(h, moves, k, c)
  }

  ghost predicate LeftBehind(h: seq<Project>, moves: seq<Move>, c: int, how: Leaving)
    requires |h| == |moves| + 1
  {
    exists k :: 0 <= k < |moves| && Leaves(h, moves, k, c, how)
  }

  ghost predicate Reported(p: Project, c: int) {
    c in p.reports
  }

  ghost predicate Current(p: Project, c: int) {
    p.state.latestCommand == c && c !in p.reports
  }

  ghost function Count(b: bool): nat {
    if b then 1 else 0
  }

  ghost predicate AccountedOnce(h: seq<Project>, moves: seq<Move>, c: int)
    requires |h| == |moves| + 1
  {
    var p := h[|moves|];
    Count(Reported(p, c)) + Count(LeftBehind(h, moves, c, Replacement)) + Count(LeftBehind(h, moves, c, Overtaking))
    + Count(Withdrawn(p, c)) + Count(Current(p, c)) == 1
  }

  lemma Extend(h: seq<Project>, moves: seq<Move>)
    requires Run(h, moves) && moves != []
    ensures Run(h[..|moves|], moves[..|moves| - 1])
  {
    var g, m := h[..|moves|], moves[..|moves| - 1];
    forall i | 0 <= i < |m| ensures StepAt(g, m, i) {
      assert StepAt(h, moves, i);
      assert g[..i + 1] == h[..i + 1];
    }
  }

  /** Being left behind is decided by the moves so far; one more move adds at most one case. */
  lemma LeftBehindStep(h: seq<Project>, moves: seq<Move>, c: int, how: Leaving)
    requires |h| == |moves| + 1 && moves != []
    ensures var n := |moves| - 1;
            LeftBehind(h, moves, c, how) <==> LeftBehind(h[..n + 1], moves[..n], c, how) || Leaves(h, moves, n, c, how)
  {
    var n := |moves| - 1;
    var g, m := h[..n + 1], moves[..n];
    assert forall k :: 0 <= k < n ==> (Leaves(g, m, k, c, how) <==> Leaves(h, moves, k, c, how));
    if LeftBehind(h, moves, c, how) {
      var k :| 0 <= k < |moves| && Leaves(h, moves, k, c, how);
      assert k == n || Leaves(g, m, k, c, how);
    }
    if LeftBehind(g, m, c, how) {
      var k :| 0 <= k < |m| && Leaves(g, m, k, c, how);
      assert Leaves(h, moves, k, c, how);
    }
  }

  lemma WithdrawnStep(p: Project, q: Project, c: int)
    requires Progress(p, q)
    ensures Withdrawn(q, c) <==> Withdrawn(p, c) ||
                                 (q.state.withdrawnCommands != p.state.withdrawnCommands && c == p.state.latestCommand)
  {
    var a, b := p.state.withdrawnCommands, q.state.withdrawnCommands;
    if b != a {
      assert b[|a|].commandId == p.state.latestCommand;
    }
    if Withdrawn(p, c) {
      var w :| 0 <= w < |a| && a[w].commandId == c;
      assert b[w].commandId == c;
    }
  }

  predicate Replacing(op: Op) {
    op.ManualStart? || op.Repair? || op.Adopt? || op.ManualPriority?
  }

  /** How this move leaves the current command of `p`, if it does. */
  ghost function LeavingOf(p: Project, move: Move): Option<Leaving> {
    if !move.Act? then None
    else if Replacing(move.op) && p.state.status == CommandReady then Some(Replacement)
    else if move.op.PortfolioPublish? && p.state.latestCommand !in p.reports then Some(Overtaking)
    else None
  }

  /** How an operation that lands disposes of the current command. */
  ghost predicate Disposes(p: Project, q: Project, left: bool) {
    var c := p.state.latestCommand;
    var withdrawn := q.state.withdrawnCommands != p.state.withdrawnCommands;
    && (left ==> !withdrawn)
    && (left || withdrawn ==> c !in p.reports && c !in q.reports && q.state.latestCommand > c)
    && (!left && !withdrawn && c > 0 ==> c in q.reports || q.state.latestCommand == c)
  }

  lemma ReplacingDisposes(op: Op, p: Project, q: Project)
    requires Inv(p) && Lands(op, p, q) && (Replacing(op) || op.PortfolioPublish?)
    ensures Disposes(p, q, LeavingOf(p, Act(op)).Some?)
  {
    LandsKeepsInv(op, p, q);
    assert q.state.withdrawnCommands == p.state.withdrawnCommands && q.reports == p.reports;
  }

  lemma OthersDispose(op: Op, p: Project, q: Project)
    requires Inv(p) && Lands(op, p, q) && !Replacing(op) && !op.PortfolioPublish?
    ensures Disposes(p, q, false)
  {
    LandsKeepsInv(op, p, q);
  }

  lemma CurrentStep(h: seq<Project>, move: Move, q: Project)
    requires h != [] && Inv(h[|h| - 1]) && Applies(h, move, q)
    ensures Disposes(h[|h| - 1], q, LeavingOf(h[|h| - 1], move).Some?)
  {
    var p := h[|h| - 1];
    if move.Act? {
      hide Inv, Lands, Disposes;
      if Replacing(move.op) || move.op.PortfolioPublish? {
        ReplacingDisposes(move.op, p, q);
      } else {
        OthersDispose(move.op, p, q);
      }
    }
  }

  lemma AllBelow(h: seq<Project>, moves: seq<Move>, c: int)
    requires Run(h, moves) && EverCurrent(h, c)
    ensures c <= h[|moves|].state.latestCommand
  {
    var i :| 0 <= i < |h| && h[i].state.latestCommand == c;
    AppendOnly(h, moves, i, |moves|);
  }

  lemma LeftIsPassed(h: seq<Project>, moves: seq<Move>, k: nat, c: int, how: Leaving)
    requires Run(h, moves) && k < |moves| && Leaves(h, moves, k, c, how)
    ensures h[k + 1].state.latestCommand > c
  {
    assert StepAt(h, moves, k);
    Reachable(h, moves, k);
    hide Run, Inv, Applies, Progress;
    CurrentStep(h[..k + 1], moves[k], h[k + 1]);
  }

  lemma LeftBehindBelow(h: seq<Project>, moves: seq<Move>, c: int, how: Leaving)
    requires Run(h, moves) && LeftBehind(h, moves, c, how)
    ensures c < h[|moves|].state.latestCommand
  {
    var k :| 0 <= k < |moves| && Leaves(h, moves, k, c, how);
    LeftIsPassed(h, moves, k, c, how);
    AppendOnly(h, moves, k + 1, |moves|);
  }

  /** What one step does to the reports, as far as conservation looks at them. */
  lemma ReportedStep(p: Project, q: Project, c: int)
    requires Progress(p, q)
    ensures Reported(p, c) ==> Reported(q, c)
    ensures Reported(q, c) && !Reported(p, c) ==> c == p.state.latestCommand == q.state.latestCommand
    ensures p.state.latestCommand <= q.state.latestCommand
  {
  }

  lemma LeavesIff(h: seq<Project>, moves: seq<Move>, k: nat, c: int, how: Leaving)
    requires |h| == |moves| + 1 && k < |moves|
    ensures Leaves(h, moves, k, c, how) <==> LeavingOf(h[k], moves[k]) == Some(how) && h[k].state.latestCommand == c
  {
  }

  lemma ConservedStep(h: seq<Project>, moves: seq<Move>, c: int)
    requires Run(h, moves) && moves != [] && c > 0
    requires c <= h[|moves| - 1].state.latestCommand && AccountedOnce(h[..|moves|], moves[..|moves| - 1], c)
    ensures AccountedOnce(h, moves, c)
  {
    var n := |moves| - 1;
    LeftBehindStep(h, moves, c, Replacement);
    LeftBehindStep(h, moves, c, Overtaking);
    Reachable(h, moves, n);
    WithdrawnStep(h[n], h[n + 1], c);
    ReportedStep(h[n], h[n + 1], c);
    assert StepAt(h, moves, n);
    hide Run, Inv, Progress, Applies, LeftBehind, Withdrawn, Leaves, LeavingOf;
    CurrentStep(h[..n + 1], moves[n], h[n + 1]);
    LeavesIff(h, moves, n, c, Replacement);
    LeavesIff(h, moves, n, c, Overtaking);
  }

  /** Conservation: every id that was ever current is, at every point of every run, in
      exactly one of reported, superseded, overtaken by a portfolio publication, withdrawn or
      current. */
  lemma {:induction false} CommandsAreConserved(h: seq<Project>, moves: seq<Move>, c: int)
    requires Run(h, moves) && EverCurrent(h, c)
    ensures AccountedOnce(h, moves, c)
    decreases |moves|
  {
    if moves == [] {
      OnlyRecord(h, moves, c);
    } else {
      var g, m := h[..|moves|], moves[..|moves| - 1];
      Extend(h, moves);
      if EverCurrent(g, c) {
        CommandsAreConserved(g, m, c);
        AllBelow(g, m, c);
        hide AccountedOnce, Run;
        ConservedStep(h, moves, c);
      } else {
        NewIsCurrent(h, moves, c);
      }
    }
  }

  lemma OnlyRecord(h: seq<Project>, moves: seq<Move>, c: int)
    requires Run(h, moves) && moves == [] && EverCurrent(h, c)
    ensures AccountedOnce(h, moves, c)
  {
    Reachable(h, moves, 0);
    assert forall w :: Withdrawn(h[0], w) ==> WithdrawnBelow(h[0], w);
  }

  /** A command that has just become current is only current. */
  lemma NewIsCurrent(h: seq<Project>, moves: seq<Move>, c: int)
    requires Run(h, moves) && moves != [] && EverCurrent(h, c) && !EverCurrent(h[..|moves|], c)
    ensures AccountedOnce(h, moves, c)
  {
    var n := |moves| - 1;
    Reachable(h, moves, n);
    Reachable(h, moves, n + 1);
    forall i | 0 <= i <= n ensures h[i].state.latestCommand != c {
      assert h[..n + 1][i] == h[i];
    }
    assert h[n + 1].state.latestCommand == c;
    assert h[n].state.latestReport <= h[n].state.latestCommand < c;
    var q := h[n + 1];
    assert forall w :: Withdrawn(q, w) ==> WithdrawnBelow(q, w);
    if LeftBehind(h, moves, c, Replacement) {
      LeftBehindBelow(h, moves, c, Replacement);
    }
    if LeftBehind(h, moves, c, Overtaking) {
      LeftBehindBelow(h, moves, c, Overtaking);
    }
  }

  /** A portfolio publication overtakes the current command exactly when the snapshot it was
      planned on had not been reported: the publisher itself looks at no status but
      COMMAND_READY. */
  lemma OvertakesIff(h: seq<Project>, moves: seq<Move>, k: nat)
    requires Run(h, moves) && k < |moves| && moves[k].Act? && moves[k].op.PortfolioPublish?
    requires h[k].state.latestCommand > 0
    ensures Overtakes(h, moves, k, h[k].state.latestCommand) <==>
            moves[k].op.snap.state.latestReport < moves[k].op.snap.state.latestCommand
  {
    LandedAt(h, moves, k);
    EvidenceIsFresh(h, moves, k);
  }

  /** The statuses from which the scheduling pass plans a command. */
  predicate PlanEligible(s: State) {
    s.status == ReportReady || s.status == FinalReportReady
  }

  /** So a run whose portfolio publications come from that pass overtakes nothing. */
  lemma EligiblePlansOvertakeNothing(h: seq<Project>, moves: seq<Move>, c: int)
    requires Run(h, moves) && c > 0
    requires forall k :: 0 <= k < |moves| && moves[k].Act? && moves[k].op.PortfolioPublish?
                         ==> PlanEligible(moves[k].op.snap.state)
    ensures !LeftBehind(h, moves, c, Overtaking)
  {
    if LeftBehind(h, moves, c, Overtaking) {
      var k :| 0 <= k < |moves| && Leaves(h, moves, k, c, Overtaking);
      OvertakesIff(h, moves, k);
      LandedAt(h, moves, k);
      EvidenceIsFresh(h, moves, k);
    }
  }

  /** The replacement's header, whenever it can be read, names the command it replaced. */
  ghost predicate NamesTarget(q: Project, c: int) {
    var id := q.state.latestCommand;
    && id in q.commands
    && (q.commands[id].header.Some? ==> q.commands[id].header.value.supersedes == Present(c))
  }

  lemma ReplacingNames(op: Op, p: Project, q: Project)
    requires Inv(p) && Lands(op, p, q) && Replacing(op) && p.state.status == CommandReady
    requires op.ManualStart? ==> op.snap.state == p.state
    ensures NamesTarget(q, p.state.latestCommand)
    ensures !op.ManualStart? ==> q.commands[q.state.latestCommand].header.Some?
  {
  }

  /** A replacement is a later command that names the one it replaced, and no command is
      replaced twice. */
  lemma ReplacementNamesItsTarget(h: seq<Project>, moves: seq<Move>, k: nat, c: int)
    requires Run(h, moves) && k < |moves| && Replaces(h, moves, k, c)
    ensures h[k + 1].state.latestCommand > c && NamesTarget(h[k + 1], c)
    ensures !moves[k].op.ManualStart? ==> h[k + 1].commands[h[k + 1].state.latestCommand].header.Some?
    ensures forall k' :: 0 <= k' < |moves| && Replaces(h, moves, k', c) ==> k' == k
  {
    LeftIsPassed(h, moves, k, c, Replacement);
    LandedAt(h, moves, k);
    if moves[k].op.ManualStart? {
      EvidenceIsFresh(h, moves, k);
    }
    ReplacingNames(moves[k].op, h[k], h[k + 1]);
    hide Inv, Lands, NamesTarget, Run;
    forall k' | 0 <= k' < |moves| && Replaces(h, moves, k', c) ensures k' == k {
      LeftIsPassed(h, moves, k', c, Replacement);
      if k < k' {
        AppendOnly(h, moves, k + 1, k');
      } else if k' < k {
        AppendOnly(h, moves, k' + 1, k);
      }
    }
  }

  // ----------------------------------- what is offered is what the worker accepts

  /** The pending command passes the claim validator on the record that offers it. */
  ghost predicate OfferedIsValid(p: Project) {
    var c := p.state.latestCommand;
    && c in p.commands
    && p.commands[c].header.Some?
    && ValidPending(p.state, c, p.commands[c].header.value)
  }

  /** A worker only ever claims a command that its preflight accepts on the very record the
      claim lands on, whatever record its evidence was read from; and the lease records
      that command's own identity. */
  lemma ClaimsOnlyWhatIsClaimable(h: seq<Project>, moves: seq<Move>, i: nat)
    requires Run(h, moves) && i < |moves| && moves[i].Act? && moves[i].op.Claim?
    ensures Claimable(h[i])
    ensures h[i + 1].state == ClaimedState(h[i].state, h[i], moves[i].op.runId)
    ensures h[i + 1].commands == h[i].commands && h[i + 1].reports == h[i].reports
  {
    EvidenceIsFresh(h, moves, i);
    LandedAt(h, moves, i);
  }

  /** The ways a record becomes pending, seen on one commit. */
  lemma PublishOffersClaimable(op: Op, p: Project, q: Project)
    requires Inv(p) && Lands(op, p, q) && op.Publish?
    ensures OfferedIsValid(q) && Claimable(q)
  {
  }

  lemma PortfolioOffersClaimable(op: Op, p: Project, q: Project)
    requires Inv(p) && Lands(op, p, q) && (op.PortfolioPublish? || op.ManualPriority?)
    ensures OfferedIsValid(q) && Claimable(q)
  {
  }

  lemma RepairOffersValid(op: Op, p: Project, q: Project)
    requires Inv(p) && Lands(op, p, q) && (op.Repair? || op.Adopt?)
    ensures OfferedIsValid(q)
    ensures Claimable(q) <==> q.commands[q.state.latestCommand].phasedBodyParses
  {
  }

  lemma OnlyTheseOffer(op: Op, p: Project, q: Project)
    requires Lands(op, p, q) && Pending(q.state.status)
    ensures op.Publish? || op.Repair? || op.Adopt? || op.PortfolioPublish? || op.ManualPriority?
  {
  }

  /** Every pending state written during a run passes the claim validator.  A publication is
      claimable outright.  Repair does not parse the phased body, so a repaired command is
      claimable exactly when that body parses. */
  lemma WrittenPendingIsValid(h: seq<Project>, moves: seq<Move>, i: nat)
    requires Run(h, moves) && i < |moves|
    requires Pending(h[i + 1].state.status) && h[i + 1].state.generation > h[i].state.generation
    ensures moves[i].Act?
    ensures OfferedIsValid(h[i + 1])
    ensures Claimable(h[i + 1]) <==> h[i + 1].commands[h[i + 1].state.latestCommand].phasedBodyParses
    ensures !moves[i].op.Repair? && !moves[i].op.Adopt? ==> Claimable(h[i + 1])
  {
    Reachable(h, moves, i);
    assert StepAt(h, moves, i);
    LandedAt(h, moves, i);
    OnlyTheseOffer(moves[i].op, h[i], h[i + 1]);
    if moves[i].op.Publish? {
      PublishOffersClaimable(moves[i].op, h[i], h[i + 1]);
    } else if moves[i].op.PortfolioPublish? || moves[i].op.ManualPriority? {
      PortfolioOffersClaimable(moves[i].op, h[i], h[i + 1]);
    } else {
      RepairOffersValid(moves[i].op, h[i], h[i + 1]);
    }
  }

  /** So a pending command the validator rejects has been pending since the run began... */
  lemma {:induction false} DefectsOnlyFromTheStart(h: seq<Project>, moves: seq<Move>, i: nat)
    requires Run(h, moves) && i < |h| && Pending(h[i].state.status) && !OfferedIsValid(h[i])
    ensures h[i].state == h[0].state
    decreases i
  {
    Reachable(h, moves, i);
    if i > 0 {
      Reachable(h, moves, i - 1);
      if h[i].state.generation > h[i - 1].state.generation {
        WrittenPendingIsValid(h, moves, i - 1);
      } else {
        DefectsOnlyFromTheStart(h, moves, i - 1);
      }
    }
  }

  /** ...and a repair can land at most once in a run, on the state the run began with. */
  lemma RepairsOnlyTheStart(h: seq<Project>, moves: seq<Move>, i: nat)
    requires Run(h, moves) && i < |moves| && moves[i].Act? && (moves[i].op.Repair? || moves[i].op.Adopt?)
    ensures h[i].state == h[0].state
    ensures forall j :: i < j < |moves| && moves[j].Act? ==> !moves[j].op.Repair? && !moves[j].op.Adopt?
  {
    RepairTargetIsDefective(h, moves, i);
    DefectsOnlyFromTheStart(h, moves, i);
    LandedAt(h, moves, i);
    forall j | i < j < |moves| && moves[j].Act? ensures !moves[j].op.Repair? && !moves[j].op.Adopt? {
      if moves[j].op.Repair? || moves[j].op.Adopt? {
        RepairTargetIsDefective(h, moves, j);
        DefectsOnlyFromTheStart(h, moves, j);
        AppendOnly(h, moves, i + 1, j);
      }
    }
  }

  lemma RepairTargetIsDefective(h: seq<Project>, moves: seq<Move>, i: nat)
    requires Run(h, moves) && i < |moves| && moves[i].Act? && (moves[i].op.Repair? || moves[i].op.Adopt?)
    ensures Pending(h[i].state.status) && !OfferedIsValid(h[i])
  {
    LandedAt(h, moves, i);
    RepairOpenIffClaimRejects(h[i]);
  }

  /** A staged request is published by at most one commit, however often it is polled: the
      publication fixes the generation, and the generation never returns. */
  lemma RequestPublishedAtMostOnce(h: seq<Project>, moves: seq<Move>, i: nat, j: nat)
    requires Run(h, moves) && i < |moves| && j < |moves| && moves[i].Act? && moves[j].Act?
    requires moves[i].op.Publish? && moves[j].op.Publish? && moves[i].op.request == moves[j].op.request
    ensures i == j
  {
    LandedAt(h, moves, i);
    LandedAt(h, moves, j);
    if i < j {
      AppendOnly(h, moves, i + 1, j);
    } else if j < i {
      AppendOnly(h, moves, j + 1, i);
    }
  }

  lemma LeaseFixesGeneration(op: Op, p: Project, q: Project, p': Project, q': Project)
    requires !op.ReadsSnapshot() && Lands(op, p, q) && Lands(op, p', q')
    ensures p.state.generation == p'.state.generation
  {
  }

  /** A call lands at most one commit, however many attempts it makes and whatever became of
      their pushes: its evidence fits one record of the run, and landing leaves that record. */
  lemma OperationLandsOnce(h: seq<Project>, moves: seq<Move>, i: nat, j: nat)
    requires Run(h, moves) && i < |moves| && j < |moves|
    requires moves[i].Act? && moves[j] == moves[i]
    ensures i == j
  {
    if i != j {
      var a, b := if i < j then i else j, if i < j then j else i;
      LandedAt(h, moves, a);
      LandedAt(h, moves, b);
      AppendOnly(h, moves, a + 1, b);
      hide Inv, Lands, Run;
      if moves[a].op.ReadsSnapshot() {
        EvidenceIsFresh(h, moves, a);
        EvidenceIsFresh(h, moves, b);
      } else {
        LeaseFixesGeneration(moves[a].op, h[a], h[a + 1], h[b], h[b + 1]);
      }
    }
  }

  /** The operations whose retry can tell that they have landed: not staged adoption, whose
      `already_applied` is always false, nor a portfolio publication, nor a manual priority
      command that carries no request id. */
  predicate Recognizable(op: Op) {
    !op.Adopt? && !op.PortfolioPublish? && (op.ManualPriority? ==> op.plan.manualRequestId.Some?)
  }

  /** What an operation lands it recognizes as already applied, exactly when it is
      recognizable: then a retry after a lost reply returns instead of publishing again.
      The others find neither themselves nor the state they expected: a conflict. */
  lemma LandedIsAlready(op: Op, p: Project, q: Project)
    requires Inv(p) && Lands(op, p, q)
    ensures Already(op, q) <==> Recognizable(op)
    ensures !Recognizable(op) ==> !Expected(op, q)
  {
    if op.Withdraw? {
      LandedWithdrawal(op, p, q);
    } else if op.Publish? || op.Repair? || op.ManualStart? {
      LandedCommand(op, p, q);
    } else if op.Resolve? {
      LandedResolution(op, p, q);
    } else if op.ManualPriority? {
      LandedPriority(op, p, q);
    } else if op.Adopt? || op.PortfolioPublish? {
      LandedConflicts(op, p, q);
    } else {
      LandedLease(op, p, q);
    }
    hide Inv, Lands, Already, Expected;
  }

  lemma LandedWithdrawal(op: Op, p: Project, q: Project)
    requires Inv(p) && Lands(op, p, q) && op.Withdraw?
    ensures Already(op, q)
  {
    assert q.state.withdrawnCommands == p.state.withdrawnCommands + [WithdrawalRecord(op)];
  }

  lemma LandedCommand(op: Op, p: Project, q: Project)
    requires Inv(p) && Lands(op, p, q) && (op.Publish? || op.Repair? || op.ManualStart?)
    ensures Already(op, q)
  {
  }

  lemma LandedResolution(op: Op, p: Project, q: Project)
    requires Inv(p) && Lands(op, p, q) && op.Resolve?
    ensures Already(op, q)
  {
  }

  lemma LandedLease(op: Op, p: Project, q: Project)
    requires Inv(p) && Lands(op, p, q)
    requires op.Claim? || op.Interrupt? || op.Complete? || op.ManualFinish? || op.Reconcile?
    ensures Already(op, q)
  {
  }

  lemma LandedPriority(op: Op, p: Project, q: Project)
    requires Inv(p) && Lands(op, p, q) && op.ManualPriority?
    ensures Already(op, q) <==> op.plan.manualRequestId.Some?
    ensures !Expected(op, q)
  {
  }

  lemma LandedConflicts(op: Op, p: Project, q: Project)
    requires Inv(p) && Lands(op, p, q) && (op.Adopt? || op.PortfolioPublish?)
    ensures !Already(op, q) && !Expected(op, q)
  {
  }

  predicate WritesRunReport(op: Op) {
    op.Complete? || op.ManualFinish? || op.Reconcile?
  }

  function ReportedCommand(op: Op): int
    requires WritesRunReport(op)
  {
    match op
    case Complete(e) => e.commandId
    case ManualFinish(_, _, c, _, _, _, _) => c
    case Reconcile(_, e) => e.commandId
  }

  lemma WritesWhereNone(op: Op, p: Project, q: Project)
    requires Inv(p) && Lands(op, p, q) && WritesRunReport(op)
    ensures ReportedCommand(op) !in p.reports && ReportedCommand(op) in q.reports
  {
  }

  /** Whoever finishes a run, its report is written by one commit, and never over another. */
  lemma ReportWrittenOnce(h: seq<Project>, moves: seq<Move>, i: nat, j: nat)
    requires Run(h, moves) && i < |moves| && j < |moves| && moves[i].Act? && moves[j].Act?
    requires WritesRunReport(moves[i].op) && WritesRunReport(moves[j].op)
    requires ReportedCommand(moves[i].op) == ReportedCommand(moves[j].op)
    ensures i == j
    ensures ReportedCommand(moves[i].op) !in h[i].reports && ReportedCommand(moves[i].op) in h[i + 1].reports
  {
    LandedAt(h, moves, i);
    LandedAt(h, moves, j);
    WritesWhereNone(moves[i].op, h[i], h[i + 1]);
    WritesWhereNone(moves[j].op, h[j], h[j + 1]);
    hide Inv, Lands, Run;
    if i < j {
      AppendOnly(h, moves, i + 1, j);
    } else if j < i {
      AppendOnly(h, moves, j + 1, i);
    }
  }

  // ----------------------------------------------------------- a whole cycle

  lemma RunExtends(h: seq<Project>, moves: seq<Move>, move: Move, q: Project)
    requires Run(h, moves) && Applies(h, move, q)
    ensures Run(h + [q], moves + [move])
  {
    hide Applies, Inv;
    var g, m := h + [q], moves + [move];
    forall i | 0 <= i < |m| ensures StepAt(g, m, i) {
      if i < |moves| {
        assert StepAt(h, moves, i);
        assert g[..i + 1] == h[..i + 1];
      } else {
        assert g[..i + 1] == h;
      }
    }
  }

  /** The header of a command that the witnesses below publish. */
  function ScheduledMeta(id: int, s: State): Meta {
    Meta(Present(id), Present(ScheduledChatgpt), Present(s.latestReport), Present(s.generation + 1), Present(Execute),
         true, Absent, Absent, Absent, false)
  }

  /** From any idle project with no command file above the latest command, the gateway
      publishes the next one... */
  lemma PublishedRun(p: Project, text: nat) returns (h: seq<Project>, moves: seq<Move>)
    requires Inv(p) && p.state.status == ReportReady && forall c :: c in p.commands ==> c <= p.state.latestCommand
    ensures Run(h, moves) && |moves| == 1 && h[0] == p && moves[0].Act? && moves[0].op.Publish?
    ensures var id := p.state.latestCommand + 1;
            h[1] == Project(p.state.(status := CommandReady, generation := p.state.generation + 1, latestCommand := id,
                                     lastReviewedReport := p.state.latestReport, activeRun := None),
                            p.commands[id := Command(Some(ScheduledMeta(id, p.state)), true, text)], p.reports)
  {
    var id, g := p.state.latestCommand + 1, p.state.generation + 1;
    var c := Command(Some(ScheduledMeta(id, p.state)), true, text);
    var publish := Publish(p, Request(id, ScheduledChatgpt, Execute, p.state.latestReport, g, c), false);
    var q := PublishStep(publish, p);
    h, moves := [p] + [q], [] + [Act(publish)];
    hide Inv, Lands;
    assert Run([p], []);
    RunExtends([p], [], Act(publish), q);
  }

  /** ...and a worker claims it. */
  lemma ClaimedRun(p: Project, text: nat, nonce: nat) returns (h: seq<Project>, moves: seq<Move>)
    requires Inv(p) && p.state.status == ReportReady && forall c :: c in p.commands ==> c <= p.state.latestCommand
    ensures Run(h, moves) && |moves| == 2 && h[0] == p
    ensures moves[0].Act? && moves[0].op.Publish? && moves[1].Act? && moves[1].op.Claim? && IsClaim(h, 1)
    ensures var id, g := p.state.latestCommand + 1, p.state.generation;
            h[2] == Project(p.state.(status := CodexRunning, generation := g + 2, latestCommand := id,
                                     lastReviewedReport := p.state.latestReport, workerPid := true,
                                     activeRun := Some(Lease(WorkerRun(id, nonce), id, ScheduledChatgpt, None,
                                                             p.state.latestReport, g + 1, g + 2, None, None))),
                            p.commands[id := Command(Some(ScheduledMeta(id, p.state)), true, text)], p.reports)
  {
    var g, m := PublishedRun(p, text);
    var q := g[1];
    LandedAt(g, m, 0);
    PublishOffersClaimable(m[0].op, p, q);
    var claim := Claim(q, WorkerRun(q.state.latestCommand, nonce));
    var r := ClaimStep(claim, q);
    h, moves := g + [r], m + [Act(claim)];
    hide Inv, Lands, Run;
    RunExtends(g, m, Act(claim), r);
  }

  /** Runs do happen: its report brings the project back to idle. */
  lemma CycleExists(p: Project, text: nat, nonce: nat, report: Report) returns (h: seq<Project>, moves: seq<Move>)
    requires Inv(p) && p.state.status == ReportReady && forall c :: c in p.commands ==> c <= p.state.latestCommand
    ensures Run(h, moves) && |moves| == 3 && h[0] == p
    ensures moves[0].Act? && moves[0].op.Publish? && moves[1].Act? && moves[1].op.Claim? && moves[2].Act? && moves[2].op.Complete?
    ensures IsClaim(h, 1) && h[2].state.latestCommand == p.state.latestCommand + 1
    ensures h[3].state.status == ReportReady && h[3].state.latestReport == p.state.latestCommand + 1
    ensures h[3].reports == p.reports[p.state.latestCommand + 1 := report]
  {
    var g, m := ClaimedRun(p, text, nonce);
    var id, r := p.state.latestCommand + 1, g[2];
    var complete := Complete(Evidence(WorkerRun(id, nonce), id, r.state.generation, ScheduledChatgpt, ReportReady, report));
    var s := CompleteStep(complete, r);
    h, moves := g + [s], m + [Act(complete)];
    hide Inv, Lands, Run;
    RunExtends(g, m, Act(complete), s);
  }

  /** A replacement may run too: the published command is replaced by a manual priority one,
      which a worker claims. */
  lemma ReplacementRuns(p: Project, text: nat, nonce: nat) returns (h: seq<Project>, moves: seq<Move>)
    requires Inv(p) && p.state.status == ReportReady && forall c :: c in p.commands ==> c <= p.state.latestCommand
    ensures Run(h, moves) && |moves| == 3 && h[0] == p && Replaces(h, moves, 1, p.state.latestCommand + 1)
    ensures h[2].state.latestCommand == h[3].state.latestCommand == p.state.latestCommand + 2
    ensures h[3].state.status == CodexRunning && h[3].state.activeRun.Some?
    ensures HoldsLease(h[3].state, Evidence(WorkerRun(p.state.latestCommand + 2, nonce), p.state.latestCommand + 2,
                                            h[3].state.generation, ManualChatgpt, ReportReady, Authored(text)))
  {
    var g, m := ReplacedRun(p, text);
    var claim := Claim(g[2], WorkerRun(g[2].state.latestCommand, nonce));
    hide Inv, Lands, Run, Claimable;
    var r := ClaimManual(claim, g[2]);
    h, moves := g + [r], m + [Act(claim)];
    hide HoldsLease;
    RunExtends(g, m, Act(claim), r);
  }

  lemma ReplacedRun(p: Project, text: nat) returns (h: seq<Project>, moves: seq<Move>)
    requires Inv(p) && p.state.status == ReportReady && forall c :: c in p.commands ==> c <= p.state.latestCommand
    ensures Run(h, moves) && |moves| == 2 && h[0] == p && Replaces(h, moves, 1, p.state.latestCommand + 1)
    ensures h[2].state.latestCommand == p.state.latestCommand + 2 && Claimable(h[2]) && h[2].state.activeRun.None?
    ensures h[2].commands[h[2].state.latestCommand].header.value.source == Present(ManualChatgpt)
  {
    var g, m := PublishedRun(p, text);
    LandedAt(g, m, 0);
    var priority := ManualPriority(g[1], Plan(Execute, ManualChatgpt, true, None, true, true, text));
    var q := PriorityStep(priority, g[1]);
    PriorityClaimable(priority, g[1], q);
    h, moves := g + [q], m + [Act(priority)];
    hide Inv, Lands, Run;
    RunExtends(g, m, Act(priority), q);
  }

  lemma ClaimManual(op: Op, p: Project) returns (q: Project)
    requires op.Claim? && op.snap == p && Claimable(p) && p.state.activeRun.None?
    requires op.runId.WorkerRun? && op.runId.command == p.state.latestCommand
    requires p.commands[p.state.latestCommand].header.value.source == Present(ManualChatgpt)
    ensures Lands(op, p, q) && q.state.latestCommand == p.state.latestCommand
    ensures q.state.status == CodexRunning && q.state.activeRun.Some?
    ensures forall text :: HoldsLease(q.state, Evidence(op.runId, p.state.latestCommand, q.state.generation, ManualChatgpt,
                                                        ReportReady, text))
  {
    q := ClaimStep(op, p);
  }

  lemma PriorityClaimable(op: Op, p: Project, q: Project)
    requires Inv(p) && Lands(op, p, q) && op.ManualPriority?
    ensures Claimable(q) && q.state.activeRun.None?
  {
    PortfolioOffersClaimable(op, p, q);
  }

  lemma PriorityStep(op: Op, p: Project) returns (q: Project)
    requires Inv(p) && op.ManualPriority? && op.snap == p && p.state.status == CommandReady && OfferedIsValid(p)
    requires var m := p.commands[p.state.latestCommand].header.value;
             && m.source == Present(ScheduledChatgpt) && m.kind == Present(Execute)
             && m.manualRequestId.Absent? && m.supersedes.Absent?
    requires forall c :: c in p.commands ==> c <= p.state.latestCommand
    requires op.plan == Plan(Execute, ManualChatgpt, true, None, true, true, op.plan.text)
    ensures Lands(op, p, q) && q.state.latestCommand == p.state.latestCommand + 1
    ensures q.commands[q.state.latestCommand].header.Some?
    ensures q.commands[q.state.latestCommand].header.value.source == Present(ManualChatgpt)
  {
    assert NextCommandId(p) == p.state.latestCommand + 1;
    q := Build(op, p).value;
  }

  /** Elsewhere the publisher does leave commands behind: from every idle record whose
      command has no report, whatever its status, one portfolio publication overtakes it. */
  lemma OvertakingExists(p: Project, text: nat) returns (h: seq<Project>, moves: seq<Move>)
    requires Inv(p) && p.state.status != CommandReady && p.state.status != CodexRunning
    requires 0 < p.state.latestCommand && p.state.latestReport < p.state.latestCommand
    requires p.state.latestCommand + 1 !in p.commands
    ensures Run(h, moves) && h[0] == p && |moves| == 1
    ensures LeftBehind(h, moves, p.state.latestCommand, Overtaking)
    ensures h[1].state.status == CommandReady && h[1].state.latestCommand == p.state.latestCommand + 1
  {
    var publish := PortfolioPublish(p, Plan(Execute, ScheduledChatgpt, true, None, true, true, text));
    var q := PortfolioStep(publish, p);
    h, moves := [p, q], [Act(publish)];
    hide Inv, Lands;
    assert h[..1] == [p];
    assert StepAt(h, moves, 0);
    assert Leaves(h, moves, 0, p.state.latestCommand, Overtaking);
  }

  /** A command published in the run may be withdrawn in it: from any idle project a manual
      command is published through the portfolio lane and withdrawn for its replacement. */
  lemma WithdrawalExists(p: Project, text: nat, request: RequestId) returns (h: seq<Project>, moves: seq<Move>)
    requires Inv(p) && p.state.status == ReportReady && p.state.latestCommand + 1 !in p.commands
    requires forall w :: w in p.state.withdrawnCommands ==> ValidWithdrawal(w)
    ensures Run(h, moves) && h[0] == p && |moves| == 2
    ensures h[1].state.status == CommandReady && h[1].state.latestCommand == p.state.latestCommand + 1
    ensures Withdrawn(h[2], p.state.latestCommand + 1)
    ensures h[2].state.status == CodexRunning && h[2].state.latestCommand == NextCommandId(h[1])
  {
    var id := p.state.latestCommand + 1;
    var publish := PortfolioPublish(p, Plan(Execute, ManualChatgpt, true, None, true, true, text));
    var q := PortfolioStep(publish, p);
    PortfolioKeepsInv(publish, p, q);
    var withdraw := Withdraw(q, id, request, true, true, text);
    var r := WithdrawStep(withdraw, q);
    h, moves := [p, q, r], [Act(publish), Act(withdraw)];
    hide Inv, Lands;
    assert h[..1] == [p] && h[..2] == [p, q];
    assert StepAt(h, moves, 0) && StepAt(h, moves, 1);
  }

  lemma PortfolioStep(op: Op, p: Project) returns (q: Project)
    requires Inv(p) && op.PortfolioPublish? && op.snap == p
    requires p.state.status != CommandReady && p.state.status != CodexRunning
    requires p.state.latestCommand + 1 !in p.commands
    requires op.plan.kind == Execute && op.plan.source != Finalizer && op.plan.executorValid
    requires op.plan.headerParses && op.plan.bodyParses && op.plan.manualRequestId.None?
    ensures Lands(op, p, q)
    ensures var id := p.state.latestCommand + 1;
            && q.state == PortfolioState(p.state, op.plan) && q.reports == p.reports
            && q.commands == p.commands[id := Command(Some(PlannedMeta(id, p.state, op.plan)), true, op.plan.text)]
  {
    q := Build(op, p).value;
  }

  /** The header of a portfolio command that carries no request id. */
  function PlannedMeta(id: int, s: State, plan: Plan): Meta {
    Meta(Present(id), Present(plan.source), Present(s.latestReport), Present(s.generation + 1), Present(plan.kind),
         plan.executorValid, Absent, Absent, Absent, false)
  }

  lemma WithdrawStep(op: Op, p: Project) returns (q: Project)
    requires Inv(p) && op.Withdraw? && op.snap == p && op.headerParses && OfferedIsValid(p)
    requires p.state.status == CommandReady && op.target == p.state.latestCommand
    requires var m := p.commands[op.target].header.value;
             && m.source == Present(ManualChatgpt) && m.kind == Present(Execute)
             && m.supersedes.Absent? && m.withdraws.Absent?
    requires forall w :: w in p.state.withdrawnCommands ==> ValidWithdrawal(w)
    ensures Lands(op, p, q) && Withdrawn(q, op.target)
    ensures q.state.status == CodexRunning && q.state.latestCommand == NextCommandId(p)
  {
    forall w | w in p.state.withdrawnCommands ensures w.commandId != op.target {
      var i :| 0 <= i < |p.state.withdrawnCommands| && p.state.withdrawnCommands[i] == w;
      assert WithdrawnBelow(p, p.state.withdrawnCommands[i].commandId);
    }
    q := Build(op, p).value;
    assert q.state.withdrawnCommands[|p.state.withdrawnCommands|].commandId == op.target;
  }

  lemma PublishStep(op: Op, p: Project) returns (q: Project)
    requires op.Publish? && op.snap == p && PublishPrepared(p, op.request, op.ownerEvidence)
    ensures Lands(op, p, q) && q == WithCommand(p, PublishedState(p.state, op.request), op.request.commandId, op.request.command)
  {
    q := Build(op, p).value;
  }

  lemma ClaimStep(op: Op, p: Project) returns (q: Project)
    requires op.Claim? && op.snap == p && Claimable(p) && p.state.activeRun.None?
    requires op.runId.WorkerRun? && op.runId.command == p.state.latestCommand
    ensures Lands(op, p, q) && q == p.(state := ClaimedState(p.state, p, op.runId))
  {
    q := Build(op, p).value;
  }

  lemma CompleteStep(op: Op, p: Project) returns (q: Project)
    requires op.Complete? && ReportTarget(op.evidence.target) && HoldsLease(p.state, op.evidence)
    requires p.state.latestReport < op.evidence.commandId
    ensures Lands(op, p, q)
    ensures q == WithReport(p, ReportedState(p.state, op.evidence.commandId, op.evidence.target), op.evidence.commandId, op.evidence.text)
  {
    q := Build(op, p).value;
  }
}
