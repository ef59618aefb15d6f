/** `services/recovery.py` and `recovery_journal.py`: an interrupted run's local journal, written
before anything is published and closed once the branch has the interruption. */
module RecoveryJournal {
  import opened Protocol
  import opened Operations
  import opened Runs
  import opened GitModel
  import opened Publication
  import opened Retries
  import opened GitStore
  import Recovery

  /** Some record of the branch held exactly this lease. */
  ghost predicate LeaseOn(log: History, pid: Pid, runId: RunId, commandId: int, claimGeneration: int) {
    exists n :: 0 <= n < |log| && pid in log[n].tree
                && MatchesLease(log[n].tree[pid].state, runId, commandId, claimGeneration, None)
  }

  /** Some record of the branch is RECOVERY_REQUIRED for exactly this run. */
  ghost predicate RecoveredOn(log: History, pid: Pid, runId: RunId, commandId: int, claimGeneration: int) {
    exists n :: 0 <= n < |log| && pid in log[n].tree
                && MatchesRecovery(log[n].tree[pid].state, runId, commandId, claimGeneration)
  }

  ghost predicate JournalRecovered(log: History, pid: Pid, j: RunJournal) {
    RecoveredOn(log, pid, j.runId, j.commandId, j.claimGeneration)
  }

  /** The journal of a run whose lease was on the branch speaks of a lease of the project's run. */
  lemma LeaseIsSeen(log: History, pid: Pid, j: RunJournal)
    requires ValidHistory(log) && pid in log[0].tree && LeaseOn(log, pid, j.runId, j.commandId, j.claimGeneration)
    ensures Recovery.LeaseSeen(Records(log, pid), |log| - 1, j)
  {
    hide ValidHistory;
    var n :| 0 <= n < |log| && pid in log[n].tree
             && MatchesLease(log[n].tree[pid].state, j.runId, j.commandId, j.claimGeneration, None);
    assert MatchesLease(Records(log, pid)[n].state, j.runId, j.commandId, j.claimGeneration, None);
  }

  function Interruption(runId: RunId, commandId: int, claimGeneration: int): Op {
    Interrupt(runId, commandId, claimGeneration, None, false)
  }

  lemma InterruptedMatches(p: Project, q: Project, runId: RunId, commandId: int, claimGeneration: int)
    requires Inv(p) && Lands(Interruption(runId, commandId, claimGeneration), p, q)
    ensures MatchesRecovery(q.state, runId, commandId, claimGeneration)
  {
  }

  /** A call that returned found or made such a record. */
  lemma ReturnedRecovered(log: History, head: History, pid: Pid, runId: RunId, commandId: int, claimGeneration: int)
    requires ValidHistory(log) && head != [] && head <= log && pid in Tip(head)
    requires var op := Interruption(runId, commandId, claimGeneration);
             Already(op, Tip(head)[pid]) || (|head| > 1 && head[|head| - 1].change == Canonical(pid, op))
    ensures RecoveredOn(log, pid, runId, commandId, claimGeneration)
  {
    var op, n := Interruption(runId, commandId, claimGeneration), |head| - 1;
    assert log[n] == head[n];
    if n > 0 && head[n].change == Canonical(pid, op) {
      assert FollowsAt(log, n);
      SameProjects(log, n - 1);
      ProjectRuns(log, pid);
      Reachable(Records(log, pid), Moves(log, pid), n - 1);
      hide ValidHistory;
      InterruptedMatches(Tip(log[..n])[pid], log[n].tree[pid], runId, commandId, claimGeneration);
    }
    assert MatchesRecovery(log[n].tree[pid].state, runId, commandId, claimGeneration);
  }

  lemma RecordRecovered(log: History, pid: Pid, p: Project, runId: RunId, commandId: int, claimGeneration: int)
    requires RecordIn(log, pid, p) && MatchesRecovery(p.state, runId, commandId, claimGeneration)
    ensures RecoveredOn(log, pid, runId, commandId, claimGeneration)
  {
    var n :| 0 <= n < |log| && pid in log[n].tree && log[n].tree[pid] == p;
  }

  /** What a deferred journal is closed as on this record: `None` goes on to publish. */
  function SweepVerdict(p: Project, j: RunJournal): Option<JournalStatus> {
    if j.commandId in p.reports || p.state.latestReport >= j.commandId then Some(Outdated)
    else if MatchesRecovery(p.state, j.runId, j.commandId, j.claimGeneration) then Some(Acknowledged)
    else if p.state.status != CodexRunning then
      Some(if p.state.status == Done || p.state.status == FinalReportReady
           then Outdated else Contradicted)
    else if !MatchesLease(p.state, j.runId, j.commandId, j.claimGeneration, None) then Some(Contradicted)
    else None
  }

  /** When each verdict is given: a report settles it, then this run's recovery, then its lease. */
  lemma SweepTells(p: Project, j: RunJournal)
    ensures var v := SweepVerdict(p, j);
            var reported := j.commandId in p.reports || p.state.latestReport >= j.commandId;
            var recovered := MatchesRecovery(p.state, j.runId, j.commandId, j.claimGeneration);
            && (v == Some(Acknowledged) <==> !reported && recovered)
            && (v == None <==> !reported && MatchesLease(p.state, j.runId, j.commandId, j.claimGeneration, None))
            && (v == Some(Outdated) <==>
                  reported || (!recovered && (p.state.status == Done || p.state.status == FinalReportReady)))
            && v != Some(Awaiting)
  {
  }

  function Closed(j: RunJournal, status: JournalStatus): RunJournal {
    j.(status := status, publishPending := false)
  }

  class JournalFile {
    const pid: Pid
    var entry: Option<RunJournal>
    var pending: Option<PendingReport>

    constructor (project: Pid)
      ensures pid == project && entry == None && pending == None
    {
      pid, entry, pending := project, None, None;
    }

    /** Rewrite the journal under a status; a failure to write leaves it as it was. */
    method Mark(status: JournalStatus, written: bool)
      requires entry.Some?
      modifies this`entry
      ensures entry == if written then Some(Closed(old(entry).value, status)) else old(entry)
    {
      if written {
        entry := Some(Closed(entry.value, status));
      }
    }

    /** `publish_network_recovery`: the journal, the pending report, one recovery transition,
        and only then the journal's closing. */
    method PublishNetworkRecovery(checkout: Checkout, report: PendingReport, reason: nat, success: bool, journaled: bool,
                                  saved: bool, retries: int, rounds: nat -> Round, acknowledged: bool)
      returns (end: Published)
      requires checkout.Valid()
      modifies this, checkout, checkout.remote
      ensures checkout.Valid() && old(checkout.remote.log) <= checkout.remote.log
      // nothing is published before both files are written
      ensures !journaled ==> entry == old(entry)
      ensures !journaled || !saved ==>
        end == Raised && pending == old(pending) && checkout.remote.log == old(checkout.remote.log)
      // the journal names exactly this run, and is closed only if the call returned
      ensures journaled ==>
        entry.Some? && entry.value == RunJournal(report.commandId, report.runId, report.claimGeneration,
                                  if end.Returned? && acknowledged then Acknowledged else Awaiting,
                                  !(end.Returned? && acknowledged), true, success, reason)
      ensures journaled && saved ==> pending == Some(report)
      // and then the one call decides the end, the branch and the checkout
      ensures journaled && saved ==>
        var o := CallOf(old(checkout.remote.log), old(checkout.View()), pid,
                        Interruption(report.runId, report.commandId, report.claimGeneration), retries, rounds);
        end == o.result && checkout.remote.log == o.log && checkout.View() == o.clone
      ensures end.Returned? ==>
        RecoveredOn(checkout.remote.log, pid, report.runId, report.commandId, report.claimGeneration)
      // a conflict means that the lease is gone and the recovery is not this run's
      ensures end.Conflict? ==>
        && pid in Tip(checkout.remote.log)
        && !MatchesLease(Tip(checkout.remote.log)[pid].state, report.runId, report.commandId, report.claimGeneration, None)
        && !MatchesRecovery(Tip(checkout.remote.log)[pid].state, report.runId, report.commandId, report.claimGeneration)
    {
      if !journaled { return Raised; }
      entry := Some(RunJournal(report.commandId, report.runId, report.claimGeneration, Awaiting, true, true, success, reason));
      if !saved { return Raised; }
      pending := Some(report);
      end := PublishInterruption(checkout, report.runId, report.commandId, report.claimGeneration, retries, rounds);
      if end.Returned? {
        Mark(Acknowledged, acknowledged);
      }
    }

    /** The recovery transition itself. */
    method PublishInterruption(checkout: Checkout, runId: RunId, commandId: int, claimGeneration: int,
                               retries: int, rounds: nat -> Round)
      returns (end: Published)
      requires checkout.Valid()
      modifies checkout, checkout.remote
      ensures checkout.Valid() && old(checkout.remote.log) <= checkout.remote.log
      ensures var op := Interruption(runId, commandId, claimGeneration);
              var o := CallOf(old(checkout.remote.log), old(checkout.View()), pid, op, retries, rounds);
              end == o.result && checkout.remote.log == o.log && checkout.View() == o.clone
      ensures end != Published.Refused
      ensures end == Raised ==> RaiseExplained(old(checkout.remote.log), old(checkout.View()), pid, retries, rounds)
      ensures end.Returned? ==> RecoveredOn(checkout.remote.log, pid, runId, commandId, claimGeneration)
      ensures end.Conflict? ==>
        && pid in Tip(checkout.remote.log)
        && !MatchesLease(Tip(checkout.remote.log)[pid].state, runId, commandId, claimGeneration, None)
        && !MatchesRecovery(Tip(checkout.remote.log)[pid].state, runId, commandId, claimGeneration)
    {
      var op := Interruption(runId, commandId, claimGeneration);
      hide ValidHistory, MatchesRecovery, MatchesLease, Calling, Accounted, Foreign, AtomicPublish, Undisturbed, CloneOk,
           ToldAs, RecoveredOn, GoesOnTo, RaiseExplained;
      NeverBalks(op, rounds, retries);
      end := checkout.PublishCas(pid, op, retries, rounds);
      if end.Returned? {
        ReturnedRecovered(checkout.remote.log, checkout.head, pid, runId, commandId, claimGeneration);
      }
    }

    /** `_reconcile_one_journal`, for a journal that is still awaiting; `local` is the record
        read from the checkout, unreadable if None. */
    method Sweep(checkout: Checkout, local: Option<Project>, retries: int, rounds: nat -> Round, written: bool)
      returns (done: bool)
      requires checkout.Valid() && entry.Some? && entry.value.status == Awaiting && entry.value.publishPending
      modifies this, checkout, checkout.remote
      ensures checkout.Valid() && old(checkout.remote.log) <= checkout.remote.log && pending == old(pending)
      ensures local.None? ==> !done && entry == old(entry) && checkout.remote.log == old(checkout.remote.log)
      // what the record read decides is not published
      ensures local.Some? && SweepVerdict(local.value, old(entry).value).Some? ==>
        && done && checkout.remote.log == old(checkout.remote.log)
        && entry == if written then Some(Closed(old(entry).value, SweepVerdict(local.value, old(entry).value).value))
                    else old(entry)
      // otherwise the journal is closed as the call ended, and stays open exactly if it raised
      ensures local.Some? && SweepVerdict(local.value, old(entry).value).None? ==>
        var j := old(entry).value;
        var o := CallOf(old(checkout.remote.log), old(checkout.View()), pid,
                        Interruption(j.runId, j.commandId, j.claimGeneration), retries, rounds);
        var end := o.result;
        && checkout.remote.log == o.log && checkout.View() == o.clone
        && (done <==> end != Raised)
        && entry == (if !done || !written then Some(j)
                     else Some(Closed(j, if end.Conflict? then Contradicted else Acknowledged)))
        && (done && !end.Conflict? ==> JournalRecovered(checkout.remote.log, pid, j))
        && (!done ==> RaiseExplained(old(checkout.remote.log), old(checkout.View()), pid, retries, rounds))
      // closed as reconciled is backed by the branch, where the record that was read is on it
      ensures entry.Some? && entry.value.status == Acknowledged
              && (local.Some? && SweepVerdict(local.value, old(entry).value).Some? ==>
                    RecordIn(old(checkout.remote.log), pid, local.value)) ==>
        JournalRecovered(checkout.remote.log, pid, entry.value)
    {
      hide RecoveredOn, MatchesRecovery, MatchesLease, RecordIn, ValidHistory, CloneOk, CallOf, RaiseExplained;
      if local.None? { return false; }
      var j := entry.value;
      var verdict := SweepVerdict(local.value, j);
      if verdict.Some? {
        Mark(verdict.value, written);
        if verdict == Some(Acknowledged) && RecordIn(checkout.remote.log, pid, local.value) {
          RecordRecovered(checkout.remote.log, pid, local.value, j.runId, j.commandId, j.claimGeneration);
        }
        return true;
      }
      var end := PublishInterruption(checkout, j.runId, j.commandId, j.claimGeneration, retries, rounds);
      match end
      case Returned(_) => Mark(Acknowledged, written); return true;
      case Conflict => Mark(Contradicted, written); return true;
      case Raised => return false;
    }
  }

  /** The record read must be on the branch: a checkout that still holds the recovery transition
      unpushed closes the journal as reconciled although the branch still has the lease. */
  lemma UnpushedRecoveryReadsAsReconciled(log: History, commit: Commit, pid: Pid, j: RunJournal)
    requires ValidHistory(log) && Follows(log, commit)
    requires commit.change == Canonical(pid, Interruption(j.runId, j.commandId, j.claimGeneration))
    requires j.commandId !in Tip(log)[pid].reports && Tip(log)[pid].state.latestReport < j.commandId
    ensures var head := log + [commit];
            && CloneOk(Clone(head, log, false), log)
            && pid in Tip(head) && SweepVerdict(Tip(head)[pid], j) == Some(Acknowledged)
            && pid in Tip(log) && MatchesLease(Tip(log)[pid].state, j.runId, j.commandId, j.claimGeneration, None)
  {
    var head := log + [commit];
    assert head[..|head| - 1] == log;
    TipInv(log, pid);
    InterruptedMatches(Tip(log)[pid], commit.tree[pid], j.runId, j.commandId, j.claimGeneration);
  }
}
