/** `pending_report.py`: a completed report whose publication was interrupted is published
later from its sidecar, without running the command again. */
module Reconcile {
  import opened Protocol
  import opened Operations
  import opened Runs
  import opened Safety
  import opened Recovery
  import opened GitModel
  import opened Publication
  import opened Retries
  import opened GitStore

  datatype Journal = Waiting | Reconciled | Superseded | Conflicting

  datatype Answer = Ignored | Deferred | Closed(journal: Journal)

  /** The exact report is canonical, the counter has reached it and its lease is gone. */
  predicate Settled(p: Project, e: Evidence) {
    && e.commandId in p.reports
    && p.reports[e.commandId] == e.text
    && p.state.latestReport >= e.commandId
    && !HoldsLease(p.state, e)
  }

  /** The classification before any publication: `None` goes on to publish. */
  function Classify(p: Project, e: Evidence): Option<Journal> {
    if e.commandId in p.reports || p.state.latestReport >= e.commandId then
      if e.commandId in p.reports && p.state.latestReport >= e.commandId && p.reports[e.commandId] == e.text
         && !HoldsLease(p.state, e)
      then Some(Superseded) else Some(Conflicting)
    else if p.state.latestReport != e.commandId - 1 || !HoldsLease(p.state, e) then Some(Conflicting)
    else None
  }

  // ---------------------------------------------------------------- settled

  /** Once settled, settled for the rest of the branch. */
  lemma SettledStays(h: History, n: nat, pid: Pid, e: Evidence)
    requires ValidHistory(h) && 0 < n <= |h| && pid in h[n - 1].tree && Settled(h[n - 1].tree[pid], e)
    ensures pid in Tip(h) && Settled(Tip(h)[pid], e)
  {
    TipIsLater(h, n - 1, pid);
    TipInv(h, pid);
    hide ValidHistory;
  }

  lemma ReconcileSettles(snap: Project, e: Evidence, p: Project, q: Project)
    requires Lands(Op.Reconcile(snap, e), p, q)
    ensures Settled(q, e) && e.commandId !in p.reports
  {
  }

  /** The commit of a reconciliation settles its report. */
  lemma CommitSettles(h: History, i: nat, pid: Pid, snap: Project, e: Evidence)
    requires ValidHistory(h) && 0 < i < |h| && h[i].change == Canonical(pid, Op.Reconcile(snap, e))
    ensures pid in h[i].tree && Settled(h[i].tree[pid], e)
    ensures pid in h[i - 1].tree && e.commandId !in h[i - 1].tree[pid].reports
  {
    assert FollowsAt(h, i);
    assert h[..i][i - 1] == h[i - 1];
    ReconcileSettles(snap, e, h[i - 1].tree[pid], h[i].tree[pid]);
  }

  // --------------------------------------------- what a local answer is worth

  /** The other record has every counted report of this one. */
  ghost predicate Backed(p: Project, tip: Project) {
    forall c :: c in p.reports && c <= p.state.latestReport ==> c in tip.reports && tip.reports[c] == p.reports[c]
  }

  /** Whatever sidecar finds itself settled by the one record is settled by the other. */
  ghost predicate AnswersFor(p: Project, other: Project) {
    forall e: Evidence :: ReportTarget(e.target) && Settled(p, e) ==> Settled(other, e)
  }

  /** A local record, however it came about, answers for the branch's record exactly when the
      branch has its counted reports. */
  lemma AnswersForIff(p: Project, tip: Project)
    requires Inv(tip)
    ensures AnswersFor(p, tip) <==> Backed(p, tip)
  {
    if AnswersFor(p, tip) {
      forall c | c in p.reports && c <= p.state.latestReport ensures c in tip.reports && tip.reports[c] == p.reports[c] {
        var e := Evidence(WorkerRun(c, 0), c, p.state.generation + 1, ScheduledChatgpt, ReportReady, p.reports[c]);
        assert Settled(p, e);
        assert Settled(tip, e);
      }
    }
    if Backed(p, tip) {
      forall e: Evidence | ReportTarget(e.target) && Settled(p, e) ensures Settled(tip, e) {
        SettledThere(p, tip, e);
      }
    }
  }

  lemma SettledThere(p: Project, tip: Project, e: Evidence)
    requires Inv(tip) && Backed(p, tip) && Settled(p, e)
    ensures Settled(tip, e)
  {
  }

  /** Between records of the protocol this is to have its report files. */
  lemma BackedIsSubMap(p: Project, tip: Project)
    requires Inv(p)
    ensures Backed(p, tip) <==> SubMap(p.reports, tip.reports)
  {
    assert forall c :: c in p.reports ==> c <= p.state.latestReport;
    if Backed(p, tip) {
      forall c | c in p.reports ensures c in tip.reports && tip.reports[c] == p.reports[c] {
        assert c <= p.state.latestReport;
      }
    }
  }

  /** What was once on the branch is backed by its tip. */
  lemma RecordIsBacked(log: History, head: History, pid: Pid, p: Project)
    requires ValidHistory(log) && head <= log && RecordIn(head, pid, p)
    ensures pid in Tip(log) && Backed(p, Tip(log)[pid])
  {
    var j :| 0 <= j < |head| && pid in head[j].tree && head[j].tree[pid] == p;
    assert log[j] == head[j];
    hide ValidHistory, Later, Backed;
    TipIsLater(log, j, pid);
    LaterIsBacked(p, Tip(log)[pid]);
  }

  lemma LaterIsBacked(p: Project, tip: Project)
    requires Later(p, tip)
    ensures Backed(p, tip)
  {
  }

  lemma TipIsBacked(log: History, head: History, pid: Pid)
    requires ValidHistory(log) && head != [] && head <= log && pid in Tip(head)
    ensures pid in Tip(log) && Backed(Tip(head)[pid], Tip(log)[pid])
  {
    RecordIsBacked(log, head, pid, Tip(head)[pid]);
  }

  lemma SettledOnBranch(log: History, pid: Pid, p: Project, e: Evidence)
    requires ValidHistory(log) && pid in Tip(log) && Backed(p, Tip(log)[pid]) && Settled(p, e)
    ensures Settled(Tip(log)[pid], e)
  {
    TipInv(log, pid);
    SettledThere(p, Tip(log)[pid], e);
  }

  /** Where the branch does not hold the report, no commit of this reconciliation is on it. */
  lemma UnsettledIsUnpublished(h: History, pid: Pid, snap: Project, e: Evidence)
    requires ValidHistory(h) && pid in Tip(h) && Prepared(Op.Reconcile(snap, e))
    requires !Already(Op.Reconcile(snap, e), Tip(h)[pid])
    ensures forall i :: 0 < i < |h| ==> h[i].change != Canonical(pid, Op.Reconcile(snap, e))
  {
    forall i | 0 < i < |h| ensures h[i].change != Canonical(pid, Op.Reconcile(snap, e)) {
      if h[i].change == Canonical(pid, Op.Reconcile(snap, e)) {
        CommitSettles(h, i, pid, snap, e);
        SettledStays(h, i + 1, pid, e);
      }
    }
  }

  // ---------------------------------------------------------------- sidecar

  class Sidecar {
    const pid: Pid
    const evidence: Evidence
    var journal: Journal
    var publishPending: bool

    constructor (project: Pid, e: Evidence)
      requires ReportTarget(e.target)
      ensures Valid() && pid == project && evidence == e && journal == Waiting && publishPending
    {
      pid, evidence, journal, publishPending := project, e, Waiting, true;
    }

    predicate Valid()
      reads this
    {
      ReportTarget(evidence.target) && (journal == Waiting <==> publishPending)
    }

    /** Close the journal under a verdict. */
    method Close(verdict: Journal) returns (answer: Answer)
      requires Valid() && verdict != Waiting
      modifies this
      ensures Valid() && journal == verdict && !publishPending && answer == Closed(verdict)
    {
      journal, publishPending := verdict, false;
      return Closed(verdict);
    }

    /** After a lost race: read once more, and never publish. */
    method Reclassify(checkout: Checkout, interlude: Round, resynced: bool, rereadable: bool) returns (answer: Answer)
      requires Valid() && checkout.Valid()
      modifies this, checkout, checkout.remote
      ensures Valid() && checkout.Valid() && old(checkout.remote.log) <= checkout.remote.log
      ensures forall i :: |old(checkout.remote.log)| <= i < |checkout.remote.log| ==> interlude.Brings(checkout.remote.log[i])
      ensures answer == Closed(Conflicting) || answer == Closed(Superseded)
      ensures answer == Closed(journal)
      // the record read again is the one at the newly synchronized head, where that succeeds
      ensures answer == Closed(Superseded) <==>
        rereadable && pid in Tip(checkout.head) && Settled(Tip(checkout.head)[pid], evidence)
      ensures var met := if resynced then Delivered(old(checkout.remote.log), interlude.beforeSync) else old(checkout.remote.log);
              && checkout.remote.log == met
              && checkout.head == (if resynced && !old(checkout.dirty) && interlude.fetch == Fetched && old(checkout.head) <= met
                                   then met else old(checkout.head))
      ensures answer == Closed(Superseded) && pid in Tip(checkout.remote.log)
              && Backed(Tip(checkout.head)[pid], Tip(checkout.remote.log)[pid]) ==>
        Settled(Tip(checkout.remote.log)[pid], evidence)
      ensures old(checkout.head) <= old(checkout.remote.log) ==> checkout.head <= checkout.remote.log
    {
      hide Settled, ValidHistory, HoldsLease, Backed, Delivered, CloneOk;
      if resynced {
        checkout.remote.Deliver(interlude.beforeSync);
        CloneOkMonotone(checkout.View(), old(checkout.remote.log), checkout.remote.log);
        var _ := checkout.SyncToRemote(false, interlude.fetch);
      }
      if !rereadable || pid !in Tip(checkout.head) || !Settled(Tip(checkout.head)[pid], evidence) {
        answer := Close(Conflicting);
      } else {
        if pid in Tip(checkout.remote.log) && Backed(Tip(checkout.head)[pid], Tip(checkout.remote.log)[pid]) {
          SettledOnBranch(checkout.remote.log, pid, Tip(checkout.head)[pid], evidence);
        }
        answer := Close(Superseded);
      }
    }

    /** `_reconcile_one`.  `local` is the record read from the checkout, unreadable if None; the
        interlude is what another process of the same clone does after a lost race. */
    method ReconcileOne(checkout: Checkout, local: Option<Project>, retries: int, rounds: nat -> Round,
                        interlude: Round, resynced: bool, rereadable: bool)
      returns (answer: Answer)
      requires Valid() && checkout.Valid()
      requires local.Some? && !checkout.dirty ==> RecordIn(checkout.head, pid, local.value)
      modifies this, checkout, checkout.remote
      ensures Valid() && checkout.Valid() && old(checkout.remote.log) <= checkout.remote.log
      ensures answer == Ignored <==> old(journal) != Waiting
      ensures answer.Closed? ==> local.Some? && journal == answer.journal != Waiting
      ensures !answer.Closed? ==> journal == old(journal)
      ensures answer == Ignored ==> checkout.View() == old(checkout.View()) && checkout.remote.log == old(checkout.remote.log)
      // it is put off exactly where the record cannot be read or the call raised
      ensures answer == Deferred <==>
        old(journal) == Waiting
        && (local.None?
            || (Classify(local.value, evidence).None?
                && CallOf(old(checkout.remote.log), old(checkout.View()), pid, Op.Reconcile(local.value, evidence), retries, rounds).result == Raised))
      ensures answer == Deferred && local.Some? ==>
        RaiseExplained(old(checkout.remote.log), old(checkout.View()), pid, retries, rounds)
      // a lost race is decided by the record read again, at the head synchronized once more if that
      // succeeds, else at the one that the call left
      ensures old(journal) == Waiting && local.Some? && Classify(local.value, evidence).None? ==>
        var o := CallOf(old(checkout.remote.log), old(checkout.View()), pid, Op.Reconcile(local.value, evidence), retries, rounds);
        && (answer == Closed(Reconciled) <==> o.result.Returned?)
        && (o.result == Conflict ==> Reread(answer, checkout, o.log, interlude, resynced, rereadable))
      // what the first read already decides is not published again
      ensures old(journal) == Waiting && local.Some? && Classify(local.value, evidence).Some? ==>
        answer == Closed(Classify(local.value, evidence).value) && checkout.remote.log == old(checkout.remote.log)
      // an undisturbed call on the branch's own record publishes the report
      ensures old(journal) == Waiting && local.Some? && Classify(local.value, evidence).None? && retries >= 1
              && Undisturbed(rounds(0)) && !rounds(0).writeFails
              && !old(checkout.dirty) && old(checkout.head) == old(checkout.remote.log)
              && pid in old(Tip(checkout.head)) && old(Tip(checkout.head))[pid] == local.value ==>
        answer == Closed(Reconciled) && |checkout.remote.log| == |old(checkout.remote.log)| + 1
        && checkout.remote.log[|old(checkout.remote.log)|].tree == old(Tip(checkout.head))[pid :=
             WithReport(local.value, ReportedState(local.value.state, evidence.commandId, evidence.target),
                        evidence.commandId, evidence.text)]
      // closing the journal as published is backed by the branch, where the first read decides
      // exactly as far as the branch has the reports that were read
      ensures answer == Closed(Reconciled) ||
              (answer == Closed(Superseded)
               && (Classify(local.value, evidence).Some? ==>
                     pid in old(Tip(checkout.remote.log)) && Backed(local.value, old(Tip(checkout.remote.log))[pid]))) ==>
        pid in Tip(checkout.remote.log) && Settled(Tip(checkout.remote.log)[pid], evidence)
      // a conflict published nothing
      ensures answer == Closed(Conflicting) ==>
        forall i :: |old(checkout.remote.log)| <= i < |checkout.remote.log| ==>
          checkout.remote.log[i] in Foreign(rounds, retries) || interlude.Brings(checkout.remote.log[i])
    {
      hide Settled, Classify, Foreign, Prepared, ReportedState, WithReport, ValidHistory, Undisturbed, Backed, RecordIn,
           Calling, RaiseExplained, Reread;
      if journal != Waiting || !publishPending { return Ignored; }
      if local.None? { return Deferred; }
      var verdict := Classify(local.value, evidence);
      ClassifySettled(local.value, evidence);
      if verdict.Some? {
        answer := Close(verdict.value);
        if verdict == Some(Superseded) && pid in Tip(checkout.remote.log) && Backed(local.value, Tip(checkout.remote.log)[pid]) {
          SettledOnBranch(checkout.remote.log, pid, local.value, evidence);
        }
        return;
      }
      answer := PublishReport(checkout, local.value, retries, rounds, interlude, resynced, rereadable);
    }

    /** The answer of a second look, from the log that the lost race left. */
    ghost predicate Reread(answer: Answer, checkout: Checkout, log: History, interlude: Round, resynced: bool, rereadable: bool)
      reads checkout
    {
      && log != []
      && var met := if resynced then Delivered(log, interlude.beforeSync) else log;
      && checkout.head == (if resynced && interlude.fetch == Fetched then met else log)
      && checkout.head != []
      && answer == if rereadable && pid in Tip(checkout.head) && Settled(Tip(checkout.head)[pid], evidence)
                   then Closed(Superseded) else Closed(Conflicting)
    }

    /** The publication of a report that the first read leaves open. */
    method PublishReport(checkout: Checkout, snap: Project, retries: int, rounds: nat -> Round,
                         interlude: Round, resynced: bool, rereadable: bool)
      returns (answer: Answer)
      requires Valid() && checkout.Valid() && journal == Waiting && Prepared(Op.Reconcile(snap, evidence))
      requires !checkout.dirty ==> RecordIn(checkout.head, pid, snap)
      modifies this, checkout, checkout.remote
      ensures Valid() && checkout.Valid() && old(checkout.remote.log) <= checkout.remote.log
      ensures answer == Deferred || (answer.Closed? && answer.journal != Waiting && journal == answer.journal)
      ensures answer == Deferred ==> journal == Waiting
      ensures var o := CallOf(old(checkout.remote.log), old(checkout.View()), pid, Op.Reconcile(snap, evidence), retries, rounds);
              && (answer == Deferred <==> o.result == Raised)
              && (answer == Closed(Reconciled) <==> o.result.Returned?)
              && (o.result == Conflict ==> Reread(answer, checkout, o.log, interlude, resynced, rereadable))
      ensures answer == Deferred ==> RaiseExplained(old(checkout.remote.log), old(checkout.View()), pid, retries, rounds)
      ensures retries >= 1 && Undisturbed(rounds(0)) && !rounds(0).writeFails
              && !old(checkout.dirty) && old(checkout.head) == old(checkout.remote.log)
              && pid in old(Tip(checkout.head)) && old(Tip(checkout.head))[pid] == snap ==>
        answer == Closed(Reconciled) && |checkout.remote.log| == |old(checkout.remote.log)| + 1
        && checkout.remote.log[|old(checkout.remote.log)|].tree == old(Tip(checkout.head))[pid :=
             WithReport(snap, ReportedState(snap.state, evidence.commandId, evidence.target), evidence.commandId, evidence.text)]
      ensures answer == Closed(Reconciled) || answer == Closed(Superseded) ==>
        pid in Tip(checkout.remote.log) && Settled(Tip(checkout.remote.log)[pid], evidence)
      ensures answer == Closed(Conflicting) ==>
        forall i :: |old(checkout.remote.log)| <= i < |checkout.remote.log| ==>
          checkout.remote.log[i] in Foreign(rounds, retries) || interlude.Brings(checkout.remote.log[i])
    {
      hide Settled, Foreign, Prepared, ReportedState, WithReport, ValidHistory, Undisturbed, Backed, RecordIn, CloneOk,
           Calling, Delivered, RaiseExplained;
      var published := PublishWith(checkout, snap, retries, rounds);
      match published
      case Raised => return Deferred;
      case Returned(_) => answer := Close(Reconciled);
      case Conflict =>
        answer := Reclassify(checkout, interlude, resynced, rereadable);
        if answer == Closed(Superseded) {
          TipIsBacked(checkout.remote.log, checkout.head, pid);
        }
    }

    /** The call of `publish_cas` itself. */
    method PublishWith(checkout: Checkout, snap: Project, retries: int, rounds: nat -> Round) returns (published: Published)
      requires Valid() && checkout.Valid() && Prepared(Op.Reconcile(snap, evidence))
      requires !checkout.dirty ==> RecordIn(checkout.head, pid, snap)
      modifies checkout, checkout.remote
      ensures checkout.Valid() && old(checkout.remote.log) <= checkout.remote.log
      ensures published.Returned? ==>
        pid in Tip(checkout.remote.log) && Settled(Tip(checkout.remote.log)[pid], evidence)
      ensures var o := CallOf(old(checkout.remote.log), old(checkout.View()), pid, Op.Reconcile(snap, evidence), retries, rounds);
              published == o.result && checkout.remote.log == o.log
      ensures published != Published.Refused
      ensures published == Raised ==> RaiseExplained(old(checkout.remote.log), old(checkout.View()), pid, retries, rounds)
      ensures published.Conflict? ==>
        && checkout.head == checkout.remote.log && !checkout.dirty
        && forall i :: |old(checkout.remote.log)| <= i < |checkout.remote.log| ==> checkout.remote.log[i] in Foreign(rounds, retries)
      ensures retries >= 1 && Undisturbed(rounds(0)) && !rounds(0).writeFails
              && !old(checkout.dirty) && old(checkout.head) == old(checkout.remote.log)
              && pid in old(Tip(checkout.head)) && old(Tip(checkout.head))[pid] == snap ==>
        published.Returned? && |checkout.remote.log| == |old(checkout.remote.log)| + 1
        && checkout.remote.log[|old(checkout.remote.log)|].tree == old(Tip(checkout.head))[pid :=
             WithReport(snap, ReportedState(snap.state, evidence.commandId, evidence.target), evidence.commandId, evidence.text)]
    {
      hide Settled, Foreign, Prepared, ReportedState, WithReport, Already, Expected, ValidHistory, AtomicPublish, Undisturbed,
           RecordIn, Calling, Accounted, ToldAs, CloneOk, RaiseExplained, GoesOnTo, Balks, BalkOf;
      var op := Op.Reconcile(snap, evidence);
      if retries >= 1 && checkout.head == checkout.remote.log && !checkout.dirty
         && pid in Tip(checkout.head) && Tip(checkout.head)[pid] == snap {
        AtomicReconcile(checkout.remote.log, pid, evidence, rounds(0).stamp);
      }
      published := checkout.PublishCas(pid, op, retries, rounds);
      NeverBalks(op, rounds, retries);
      if published.Returned? {
        ReturnedSettled(checkout.remote.log, checkout.head, pid, snap, evidence);
      } else if published.Conflict? {
        ConflictIsForeign(old(checkout.remote.log), checkout.remote.log, pid, snap, evidence, rounds, retries,
                          Calling(old(checkout.remote.log), old(checkout.View()), pid, op, 0, retries, rounds, []).landed != []);
      }
    }
  }

  /** A reconciliation that ends in a conflict landed nothing. */
  lemma ConflictIsForeign(before: History, log: History, pid: Pid, snap: Project, e: Evidence,
                          rounds: nat -> Round, retries: int, landed: bool)
    requires ValidHistory(log) && before != [] && before <= log && pid in Tip(log) && Prepared(Op.Reconcile(snap, e))
    requires !Already(Op.Reconcile(snap, e), Tip(log)[pid])
    requires Accounted(before, log, pid, Op.Reconcile(snap, e), Foreign(rounds, retries), landed)
    ensures forall i :: |before| <= i < |log| ==> log[i] in Foreign(rounds, retries)
  {
    hide Foreign, Already, Prepared, ValidHistory;
    UnsettledIsUnpublished(log, pid, snap, e);
  }

  lemma ClassifySettled(p: Project, e: Evidence)
    requires ReportTarget(e.target)
    ensures Classify(p, e) != Some(Waiting) && Classify(p, e) != Some(Reconciled)
    ensures Classify(p, e) == Some(Superseded) <==> Settled(p, e)
    ensures Classify(p, e).None? <==> Prepared(Op.Reconcile(p, e))
  {
  }

  lemma AtomicReconcile(log: History, pid: Pid, e: Evidence, stamp: nat)
    requires log != [] && pid in Tip(log) && Prepared(Op.Reconcile(Tip(log)[pid], e))
    ensures var p := Tip(log)[pid];
            var q := WithReport(p, ReportedState(p.state, e.commandId, e.target), e.commandId, e.text);
            AtomicPublish(log, pid, Op.Reconcile(p, e), stamp, false)
            == (Returned(q), log + [Commit(Tip(log)[pid := q], Canonical(pid, Op.Reconcile(p, e)), stamp)])
  {
  }

  lemma ReturnedSettled(log: History, head: History, pid: Pid, snap: Project, e: Evidence)
    requires ValidHistory(log) && head != [] && head <= log && pid in Tip(head)
    requires Prepared(Op.Reconcile(snap, e))
    requires Already(Op.Reconcile(snap, e), Tip(head)[pid]) ||
             (|head| > 1 && head[|head| - 1].change == Canonical(pid, Op.Reconcile(snap, e)))
    ensures pid in Tip(log) && Settled(Tip(log)[pid], e)
  {
    assert log[|head| - 1] == head[|head| - 1];
    if !Already(Op.Reconcile(snap, e), Tip(head)[pid]) {
      CommitSettles(log, |head| - 1, pid, snap, e);
    }
    TipIsBacked(log, head, pid);
    SettledOnBranch(log, pid, Tip(head)[pid], e);
  }

  /** The condition is not always met.  A checkout that still holds this report's commit
      unpushed reads it back as superseded, although the branch does not have the report... */
  lemma UnpushedCommitReadsAsSuperseded(log: History, commit: Commit, pid: Pid, snap: Project, e: Evidence)
    requires ValidHistory(log) && Follows(log, commit) && commit.change == Canonical(pid, Op.Reconcile(snap, e))
    ensures var head := log + [commit];
            && CloneOk(Clone(head, log, false), log)
            && pid in Tip(head) && Classify(Tip(head)[pid], e) == Some(Superseded)
            && pid in Tip(log) && e.commandId !in Tip(log)[pid].reports && !Backed(Tip(head)[pid], Tip(log)[pid])
  {
    var head := log + [commit];
    ValidExtension(log, commit);
    assert head[..|head| - 1] == log;
    CommitSettles(head, |log|, pid, snap, e);
  }

  /** ...and so does a working tree that was written but not committed. */
  lemma EditedTreeReadsAsSuperseded(log: History, pid: Pid, snap: Project, e: Evidence, edited: Project)
    requires ValidHistory(log) && pid in Tip(log) && Lands(Op.Reconcile(snap, e), Tip(log)[pid], edited)
    ensures CloneOk(Clone(log, log, true), log) && Classify(edited, e) == Some(Superseded)
    ensures e.commandId !in Tip(log)[pid].reports && !Backed(edited, Tip(log)[pid])
  {
    ReconcileSettles(snap, e, Tip(log)[pid], edited);
  }

  // ------------------------------------------------------------ report gaps

  /** While a lease is held, reconciliation is open exactly when no id lies between the last
      report and the command. */
  lemma OpenIffNoGap(p: Project, e: Evidence)
    requires Inv(p) && HoldsLease(p.state, e)
    ensures Classify(p, e).None? <==> p.state.latestReport == e.commandId - 1
    ensures Classify(p, e).Some? ==> Classify(p, e) == Some(Conflicting)
  {
  }

  /** A command that replaced another leaves a gap behind it, so its report can be published
      by the run that holds the lease but never reconciled from a sidecar. */
  lemma ReplacementNeverReconciles(h: seq<Project>, moves: seq<Move>, k: nat, c: int, i: nat, e: Evidence)
    requires Run(h, moves) && k < |moves| && k < i < |h| && Replaces(h, moves, k, c)
    requires HoldsLease(h[i].state, e) && h[i].state.latestCommand == h[k + 1].state.latestCommand
    ensures Classify(h[i], e) == Some(Conflicting)
  {
    Reachable(h, moves, k);
    Reachable(h, moves, i);
    LeftIsPassed(h, moves, k, c, Replacement);
    ReplacingReportsNothing(h, moves, k, c);
    ReportStaysBelow(h, moves, k + 1, i);
    OpenIffNoGap(h[i], e);
  }

  /** Such a run exists from every idle project with no command file above the latest command:
      its own completion lands, and its reconciliation would not. */
  lemma ReplacementReports(p: Project, text: nat, nonce: nat)
    returns (h: seq<Project>, moves: seq<Move>, e: Evidence, q: Project)
    requires Inv(p) && p.state.status == ReportReady && forall c :: c in p.commands ==> c <= p.state.latestCommand
    ensures Run(h, moves) && |moves| == 3 && h[0] == p && Replaces(h, moves, 1, p.state.latestCommand + 1)
    ensures HoldsLease(h[3].state, e) && Lands(Complete(e), h[3], q) && q.reports == h[3].reports[e.commandId := e.text]
    ensures Classify(h[3], e) == Some(Conflicting)
  {
    h, moves := ReplacementRuns(p, text, nonce);
    e := Evidence(WorkerRun(p.state.latestCommand + 2, nonce), p.state.latestCommand + 2, h[3].state.generation,
                  ManualChatgpt, ReportReady, Authored(text));
    Reachable(h, moves, 3);
    LeaseIsBelow(h[3]);
    hide Inv, Run, Replaces, Classify;
    q := CompleteStep(Complete(e), h[3]);
    ReplacementNeverReconciles(h, moves, 1, p.state.latestCommand + 1, 3, e);
  }

  lemma LeaseIsBelow(p: Project)
    requires Inv(p) && p.state.status == CodexRunning
    ensures p.state.latestReport < p.state.latestCommand
  {
  }

  lemma ReplacingReportsNothing(h: seq<Project>, moves: seq<Move>, k: nat, c: int)
    requires Run(h, moves) && k < |moves| && Replaces(h, moves, k, c)
    ensures h[k + 1].state.latestReport == h[k].state.latestReport < c
  {
    LandedAt(h, moves, k);
  }
}
