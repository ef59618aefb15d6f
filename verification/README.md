# AI-Agent-Bridge, verified model

The bridge lets agents work on projects through one shared Git branch.  A project's canonical
record is a state file, its command files and its report files.  Gateway, portfolio publisher, workers, the manual
fast lane, pending-report reconciliation, recovery resolution and operator repair all advance
that record through one primitive, `publish_cas`: fetch, test `already_applied`, test `expected`,
commit on the fetched head, push fast-forward only, retry a bounded number of times.  The system's
central promise is that a command is never run again.

The project models that record and every canonical writer, and proves what the writers keep over
all runs, all interleavings, lost replies and crashes.  Around it stand models of the parts that
feed or consume the record: phased tasks, the Codex lifecycle loop, request paging and
retirement, rotation, the supersede graph and argument rewriting.

| module | what it holds |
|---|---|
| `Protocol`, `Operations` | the record, the validators and decisions, and the thirteen canonical writers as `Prepared` / `Expected` / `Already` / `Build` |
| `Runs`, `Safety`, `Recovery` | runs of one project's record; append-only history, leases, claims, conservation; what can leave RECOVERY_REQUIRED |
| `Effects` | what each landed writer leaves in every field, which records admit which writer, and how lease, command file and withdrawal agree |
| `GitModel`, `Publication`, `Retries`, `GitStore` | the branch as a log of commits and one checkout; a `publish_cas` call as a function of its surroundings, what it owes to its attempts and why it raises, and the call step by step |
| `Cluster`, `ClusterCalls` | any number of clients racing; a client left alone is one attempt of a call |
| `Gateway` | one poll's treatment of one staged request |
| `Reconcile`, `PendingEvidence` | late publication of a finished report; the text round trip of its evidence |
| `RecoveryJournal` | an interrupted run's local journal and pending report, and their deferred publication |
| `PhasedTask`, `PhasedGrammar`, `Checkpoint` | the one-pass section parser against its grammar; the crash-prone checkpoint files |
| `Lifecycle` | the polling loop, its exits, the marker it accepts and the cleanup |
| `SupersedeGraph`, `Inbox`, `Rotation`, `Retirement` | relation errors, cursor paging, hourly focus, retirement of requests |
| `Executor`, `SelfMaintenance` | rewriting the argument vector |

A commit is identified by its whole history, as a Git object name is.  The outside world is an
arbitrary script or stream: other clients' commits, network replies, failing writes, clock and
process observations.  Hashes stand for the bytes they are made of; regular expressions, JSON and
timestamps stand outside, as classified values.

## What was found

- A reconciliation reads the local record first, and "superseded" is only as good as that record: it
  is right for every sidecar exactly when the branch has the local record's report files
  (`Reconcile.AnswersForIff`).  A checkout still holding this report's own commit unpushed, or a
  working tree edited and not committed, answers "superseded" although the branch has no such
  report (`Reconcile.UnpushedCommitReadsAsSuperseded`, `Reconcile.EditedTreeReadsAsSuperseded`).
- An answer after a conflict, `cas_race`, stale or invalid as the request's freshness then is, means
  that the request was not published exactly when the call may make one attempt only.  With two or
  more the push may be applied but reported as failed: if a worker then claims the command the
  answer is `cas_race`, if the request merely expires it is stale, each with the call's own commit on
  the branch (`Gateway.RaceMeansUnpublishedIff`, `Gateway.PublishedYetRaced`,
  `Gateway.PublishedYetStale`).
- A landed operation is recognized by its own `already_applied` except for staged adoption, the
  portfolio publication and a manual priority command without a request id, whose retry after a
  lost reply ends in a conflict (`Safety.LandedIsAlready`).
- The portfolio publisher itself looks at no status but COMMAND_READY.  It leaves an unreported
  command behind exactly when its snapshot's last report is not the latest command, FINALIZING and
  RECOVERY_REQUIRED included; snapshots chosen by the scheduling pass never are of that kind
  (`Safety.OvertakesIff`, `Safety.OvertakingExists`, `Safety.EligiblePlansOvertakeNothing`).
- `latest_report == command_id - 1` is not an invariant.  Where a command replaced another, its
  report can be published by its own run but is always refused by reconciliation
  (`Reconcile.ReplacementNeverReconciles`, `Reconcile.ReplacementReports`).
- A command claimed in the run and now under RECOVERY_REQUIRED can be resolved from a machine exactly
  when it has no report yet, its header can be read, the last report was reviewed, no owner decision
  is open, and the machine has the run's closed journal and its preserved report
  (`Recovery.ResolvableIff`).  Journals are written for network interruptions only.  So an expired
  lease without one, and every interrupted manual run, can be ended by nothing but a portfolio
  publication over it; the same holds of a command reported under RECOVERY_REQUIRED (`Recovery.ExpiredLease`,
  `Recovery.UnjournaledIsFinal`, `Recovery.ResolvedRunHeldTheLease`, `Recovery.UnreadyIsFinal`).
- A deferred journal is closed from the local record.  A checkout still holding the recovery transition
  unpushed closes it as reconciled although the branch still has the lease
  (`RecoveryJournal.UnpushedRecoveryReadsAsReconciled`).
- A compaction of phased evidence that is cut short leaves a directory that never passes inspection
  again, so it is not resumed (`Checkpoint.RunDirectory.SafeCompact`, `Checkpoint.CompactedFails`).
- Retirement checks only that sources are distinct.  It keeps every request it reports exactly for
  the batches described by `Retirement.SafeBatch`; a poll can build another one only from two file
  names that differ in case (`Retirement.SafeIff`, `Retirement.PollBatch`).
- Pending evidence loads back exactly when the report has no carriage return
  (`PendingEvidence.ReadsBackIff`).
- The self-maintenance rewrite can fail its own final validation only on a `-c` whose value is the
  full-access flag (`SelfMaintenance.FinalValidation`).

## Model

| member | source | states |
|---|---|---|
| Protocol.RepairOpenIffClaimRejects | worker/protocol_core.py:426-694 | At an idle COMMAND_READY record whose command file is present and unreported, repair inspection is eligible if and only if metadata parsing or `validate_pending_command` rejects the command. |
| Protocol.RepairOpenIff | worker/protocol_core.py:426-694 | On any record and for any target, repair inspection is eligible exactly at such a boundary, for the command waiting there, where the claim validator or the parse before it rejects it. |
| Operations.NextCommandId | worker/bridge_manual.py:61-72 | The next id is beyond the latest command, the latest report and every command file on disk, staged ones included. |
| Runs.LandsKeepsInv | worker/git_store.py:638-668 | Whatever canonical writer lands keeps the record invariant (lease iff CODEX_RUNNING, lease generation and command current, report ids bounded, withdrawals unreported), raises the generation by 1 or 2, and only adds commands, reports and withdrawals. |
| Runs.PortfolioKeepsInv | worker/vnext_runtime/supervisor_portfolio.py:609-765 | The same for the two portfolio writers, from whatever status they publish. |
| Runs.ReportKeepsInv | worker/bridge_worker.py:2283-2317 | The same for the four writers of reports, although the Worker's payload has no existence check. |
| Runs.AppendOnly | worker/protocol_core.py:166-202 | Between any two records of a run commands, reports and withdrawals only grow, ids never go back, and equal generations mean equal states and reports. |
| Runs.SnapshotPinsState | worker/protocol_core.py:1193-1209 | A `same_ready_snapshot` match between two records of a run means the whole state is equal and was equal at every record in between. |
| Runs.LeaseMatchesOneState | worker/protocol_core.py:1212-1254 | A lease identity that matches at two records matches the same state at every record in between, so once lost it never matches again. |
| Runs.EvidenceIsFresh | worker/git_store.py:638-654 | Every operation that reads a snapshot first (all but completion and interruption, which are bound to a lease) lands only where the state and reports are those of its snapshot and the snapshot's command files are all still there. |
| Safety.ClaimedAtMostOnce | worker/bridge_worker.py:1691-1740 | Two commits of a run that hand out a lease are for different commands, the later one for a later command. |
| Safety.OneLeasePerCommand | worker/protocol_core.py:1212-1254 | All running records of one command carry one and the same state, hence one lease and one generation. |
| Safety.PendingHasNeverRun | worker/bridge_worker.py:1434-1453 | While a command is pending, no earlier record of the run was running it. |
| Safety.WithdrawnNeverRan | worker/bridge_manual.py:570-694 | A withdrawn command, published in the run or before it, has no report and no lease at any record of the run, before or after its withdrawal. |
| Safety.WithdrawalExists | worker/bridge_manual.py:570-694 | From any idle record whose next id is unused and whose withdrawal records are valid, command files staged above it included, a run exists that publishes a manual command through the portfolio lane and withdraws it for a replacement, beyond all those files, that is then running. |
| Safety.CommandsAreConserved | worker/protocol_core.py:953-1190 | Every id that was ever latest_command is in exactly one of reported, replaced (manual start, manual priority, repair or adoption), overtaken by a portfolio publication, withdrawn, current. |
| Safety.OvertakesIff | worker/vnext_runtime/supervisor_portfolio.py:609-669 | A portfolio publication leaves an unreported command behind if and only if its snapshot's latest report is below its latest command. |
| Safety.EligiblePlansOvertakeNothing | worker/vnext_runtime/supervisor_portfolio.py:226-239 | In a run whose portfolio publications were planned on REPORT_READY or FINAL_REPORT_READY snapshots nothing is left behind. |
| Safety.OvertakingExists | worker/vnext_runtime/supervisor_portfolio.py:609-669 | From every record that is not running, has an unreported command and an unused next id, whatever its status but COMMAND_READY, one portfolio publication lands and overtakes it. |
| Safety.ReplacementNamesItsTarget | worker/command_repair.py:440-481 | A command that replaced another is later, its readable header names the one it replaced, the header of a repair or a manual priority command is always readable, and no command is replaced twice. |
| Safety.ClaimsOnlyWhatIsClaimable | worker/bridge_worker.py:1650-1727 | A claim that lands does so on a record that itself passes the claim preflight, with that record's own command, and changes no file but the state. |
| Safety.WrittenPendingIsValid | worker/supervisor_publication_gateway_core.py:381-420 | Whatever commit makes a record pending, the command offered passes `validate_pending_command`; it is claimable exactly when its phased body parses, and always unless a repair or adoption offered it. |
| Safety.DefectsOnlyFromTheStart | worker/protocol_core.py:867-903 | A pending command that the validator rejects has been pending since the first record of the run. |
| Safety.RepairsOnlyTheStart | worker/command_repair.py:727-781 | A repair or adoption lands at most once in a run, on the state the run began with. |
| Safety.RequestPublishedAtMostOnce | worker/supervisor_publication_gateway_core.py:704-731 | Two publications of one staged request in a run are the same commit, however often it was polled. |
| Safety.OperationLandsOnce | worker/git_store.py:720-755 | One call's operation lands at most one commit, over all its attempts and whatever became of their pushes. |
| Safety.LandedIsAlready | worker/git_store.py:619-629 | On the record it has just made, an operation answers `already_applied` if and only if it is no staged adoption, no portfolio publication and no manual priority command without a request id; those three are not expected there either, so their retry ends in a conflict. |
| Safety.ReportWrittenOnce | worker/bridge_manual.py:810-852 | Worker, manual and reconciled completions of one command are one commit, which writes a report where there was none. |
| Effects.FieldsWritten | worker/bridge_manual.py:362-416 | Every landed writer leaves exactly the stated status, generation, counters, review mark, worker and recovery marks and command file in the record, each written out field by field for the fresh record it lands on. |
| Effects.ReportsWritten | worker/bridge_worker.py:2283-2317 | A completion, manual finish or reconciliation adds exactly its own bytes as the report of the current command, a resolution adds one report there, and no other writer touches a report. |
| Effects.LandedIsFresh | worker/git_store.py:638-654 | Every commit of a run is such a landing: on a valid record, on evidence that is fresh there. |
| Effects.LeaseWritten | worker/bridge_manual.py:181-231 | What the three lease-granting writers put into the lease: run or request id, source, kind, base and claimed generation, report based on, and the withdrawn command. |
| Effects.LeaseAgreesWithCommand | worker/bridge_manual.py:181-231 | At every record of a run that still runs a command claimed in the run, the lease agrees with the readable header of that command's file on id, source, report based on, and where the lease has them kind, manual request id and withdrawn command. |
| Effects.WithdrawalsAreTrue | worker/bridge_manual.py:570-694 | Every withdrawal made in a run names, at every later record, the exact bytes of an ordinary manual command and a later replacement whose header withdraws it. |
| Effects.PublishIff | worker/supervisor_publication_gateway_core.py:704-786 | A staged request is open exactly for the next command of a REPORT_READY record, or of a HUMAN_REQUIRED one with the owner's evidence for an ordinary scheduled command, bound to its report and generation, beyond every command file, with a phased body that parses. |
| Effects.PortfolioIff | worker/vnext_runtime/supervisor_portfolio.py:609-669 | The portfolio publisher is open on every record that is neither COMMAND_READY nor running and whose next id is unused, for a complete plan whose kind is FINALIZE exactly if its source is the finalizer. |
| Effects.ClaimIff | worker/bridge_worker.py:1650-1727 | A claim is open on a record exactly when its latest command is pending, unreported, on file, its header is complete, well formed and bound to that command, generation and report, and its phased body parses. |
| Effects.CompletionIff | worker/protocol_core.py:1212-1254 | A completion lands exactly while the record holds the lease of its own run, command, generation and source; a reconciliation exactly where besides the last report is the one before. |
| Effects.FinishIff | worker/bridge_manual.py:754-852 | A manual finish lands exactly while the record holds the manual lease of its own run, command and generation. |
| Effects.InterruptIff | worker/vnext_runtime/services/recovery.py:324-434 | An interruption lands exactly while the record holds the lease it names, its source included where it names one. |
| Effects.ManualStartIff | worker/protocol_core.py:906-950 | A manual start is open exactly on a REPORT_READY record, or, for an ordinary command, over a waiting scheduled command with a valid header. |
| Effects.ManualPriorityIff | worker/vnext_runtime/supervisor_portfolio.py:818-870 | A manual priority command is open exactly over a waiting scheduled command that passes the pending validator and is neither manual nor anybody's replacement. |
| Effects.WithdrawIff | worker/protocol_core.py:1015-1190 | Where the withdrawal records are valid, a withdrawal is open exactly over a waiting manual command that passes the pending validator and neither replaces nor withdraws another. |
| Effects.RepairIff | worker/command_repair.py:440-481 | A repair is open exactly over a waiting command that the worker cannot claim for its header, for a well-formed later replacement that names it, is bound to the record, has no file yet and keeps the source and kind that can be read. |
| Effects.AdoptIff | worker/command_repair.py:727-781 | An adoption is open exactly there, for such a replacement that is on file already, whatever its source and kind. |
| Effects.RepairKeepsKind | worker/protocol_core.py:426-694 | A landed repair keeps the source and the kind of the command it replaces, as far as they can be read. |
| Effects.ManualCycle | worker/bridge_manual.py:754-852 | From any idle record a manual start of either kind and its finish with any outcome form a run; it ends FINAL_REPORT_READY exactly for kind FINALIZE, outcome SUCCESS and a delivered marker, else REPORT_READY, with one command and one report more and every other field as stated. |
| Recovery.ResolvableIff | worker/recovery_resolution.py:204-437 | A command that got its lease in the run and is under RECOVERY_REQUIRED can be resolved from given local files, by some resolution prepared from some record of the run, if and only if it is unreported, its header is readable, the last report is the reviewed one, neither flag of an owner decision is set, and the files hold a closed worker journal and a pending report for it with matching identity and no sign of success. |
| Recovery.UnresolvedIsFinal | worker/protocol_core.py:1371-1539 | While that fails for the files of every resolution tried and no portfolio publication lands, the state stays as it is for the rest of the run. |
| Recovery.UnreadyIsFinal | worker/protocol_core.py:1371-1539 | In particular where the record alone is not ready, whatever the files are. |
| Recovery.UnjournaledIsFinal | worker/vnext_runtime/services/recovery.py:324-434 | And where no machine that tries has a journal of the claimed run, every journal naming a lease that the run once held. |
| Recovery.ExpiredLease | worker/vnext_runtime/services/recovery.py:324-434 | From every idle record with no command file above the latest command and no owner decision open, a run publish, claim, lease expiry ends in a record that is ready, cannot be resolved with no files, and can be with the run's closed journal and report. |
| Recovery.ResolvedRunHeldTheLease | worker/recovery_resolution.py:322-390 | Where journals name leases of the run, a landed resolution's report names exactly the run id and generation of the lease that the command was claimed with, and that claim was a worker's. |
| RecoveryJournal.JournalFile.PublishNetworkRecovery | worker/vnext_runtime/services/recovery.py:436-570 | Nothing is published before journal and pending report are written; the journal names exactly this run and is closed only after a call that returned, which means the branch has this run's RECOVERY_REQUIRED record; a conflict means that at the tip the lease is gone and the recovery is not this run's. |
| RecoveryJournal.JournalFile.Sweep | worker/vnext_runtime/services/recovery.py:1095-1155 | A deferred journal is closed as the record read decides, without publishing, or as its one call ends: reconciled exactly when it returned, and left open exactly when it raised, which then has a cause; closed as reconciled is backed by the branch wherever the record read is on it. |
| RecoveryJournal.SweepTells | worker/vnext_runtime/services/recovery.py:1095-1155 | What the record read decides, each verdict exactly characterised over its fields. |
| RecoveryJournal.LeaseIsSeen | worker/vnext_runtime/services/recovery.py:436-497 | A journal written for a lease that a record of the branch holds names a lease of the project's run. |
| RecoveryJournal.UnpushedRecoveryReadsAsReconciled | worker/vnext_runtime/services/recovery.py:1112-1117 | For every history and every recovery transition made on it: a checkout still holding it unpushed closes the journal as reconciled while the branch's record still has the lease. |
| Safety.CycleExists | worker/supervisor_publication_gateway_core.py:833-889 | From any idle record with no command file above the latest command the run publish, claim, complete exists and ends idle with exactly one report more. |
| GitModel.ProjectRuns | worker/git_store.py:646-668 | Each project's records along the branch form a run: commits to other projects leave it unchanged and evidence is always some earlier record. |
| GitStore.Checkout.SyncToRemote | worker/git_store.py:284-324 | Succeeds exactly for an unedited tree, a working fetch and no unpushed commits unless they may be discarded, and then the checkout is at the remote head; otherwise head and edits are as they were and the tracking ref follows the fetch alone. |
| GitStore.Checkout.CommitPayloads | worker/git_store.py:430-463 | Adds exactly one commit that changes exactly one project's record, or leaves the tree edited and the head as it was. |
| GitStore.Checkout.DiscardCommit | worker/git_store.py:746-750 | After a failed push only a reset moves the head, and then to a commit the branch has, the newest one if the fetch succeeded; where the clean-up raises or does not reset, the unpushed commit stays; the checkout stays at most one commit from the branch. |
| Publication.LandedMeans | worker/git_store.py:720-755 | Of a call that ends in a conflict, every push the branch took was reported as failed; of one that raises, it was reported as failed or not at all. |
| GitStore.Checkout.PublishCas | worker/git_store.py:608-755 | The call is the function `Publication.Calling` of its script; the branch takes its commit at most once and otherwise only other clients' commits; a return is justified by a record on the branch, a conflict or a builder's refusal by its tip; lost attempts are followed by the next one (`Retries.GoesOnTo`) and a raise has one of the listed causes (`Retries.RaiseExplained`); an unresolved local commit or edit is kept and nothing of it is published; undisturbed, the call is one atomic compare-and-swap. |
| Retries.GoesOn | worker/git_store.py:633-755 | Where the attempts before the n-th lose their push without its being applied and raise nowhere, and the n-th is calm, the call's answer and log are those of one compare-and-swap on the branch that the n-th attempt fetched. |
| Retries.LostReplyIsFound | worker/git_store.py:736-750 | Where the first push is applied but reported as failed and nobody else commits, the second attempt returns the very record pushed if the operation can recognize it, else it conflicts; the branch has the one commit. |
| Retries.RaisedMeans | worker/git_store.py:612-755 | A call raises only for an edited or ahead checkout, a missing project, an attempt whose fetch, write, reply or clean-up failed after attempts that were not confirmed, or because no attempt was confirmed. |
| Retries.NeverSynchronized | worker/git_store.py:296-324 | A call without attempts, on an edited or ahead checkout, or whose first fetch fails, raises and publishes nothing. |
| GitModel.PushTells | worker/git_store.py:720-745 | A push is confirmed exactly where it was accepted as a fast-forward; the branch takes it exactly where it has not moved on and the reply says, or hides, that it was applied; only a confirmed push moves the tracking ref. |
| Cluster.ReachableWorlds | worker/git_store.py:638-755 | Every world that any clients reach through any interleaving, lost reply or crash satisfies the invariant: valid history, checkouts at most one commit ahead, fresh tokens, a lease on record behind every execution; a call may begin on any record of its checkout's history. |
| Cluster.ExecutedAtMostOnce | worker/bridge_worker.py:1691-1740 | In every reachable world no two executions are of the same command of the same project. |
| Cluster.PublicationIsSerializable | worker/git_store.py:638-668 | Every commit a run adds to the branch was built from exactly its parent's record, with `expected` true and `already_applied` false there, and leaves every other project's record as it was. |
| Cluster.UnresolvedPublishesNothing | worker/git_store.py:314-321 | One action: a client whose idle or just started checkout holds an unpushed commit keeps it and adds no commit and no execution, and stays so until that commit is on the branch. |
| Cluster.UnresolvedUntilPublished | worker/git_store.py:314-321 | Over whole runs: until its commit is on the branch, such a client stays unresolved with the same commit. |
| Cluster.SilentWhileUnresolved | worker/git_store.py:314-321 | Over whole runs: none of its own actions adds a commit or an execution meanwhile. |
| ClusterCalls.AttemptRefines | worker/git_store.py:633-755 | A client's four steps, taken without interruption in any reachable world, are one attempt of a `publish_cas` call: the same log and checkout, the next attempt or the end, and one execution exactly where a claiming call returns its own lease. |
| Gateway.RefusalIff | worker/supervisor_publication_gateway_core.py:677-786 | Everything before the call, in source order, lets a request through exactly when it was fresh, allowed and unchanged at every look and the publication is prepared on that record. |
| Gateway.RefusalTells | worker/supervisor_publication_gateway_core.py:677-786 | When each answer is given before the call, over the looks and the record's fields: active exactly for an admitted, not yet applied request on a pending, running or leased record, and likewise already seen, stale, invalid and raced; none of them is published or error. |
| Gateway.ConsumeOne | worker/supervisor_publication_gateway_core.py:677-950 | An answer that the request is on the branch (or already was, from a clean checkout that is not ahead) means the branch's record holds its exact command bytes; a refusal before the call publishes nothing; otherwise published is answered exactly when the call returned, raced, stale or invalid exactly when it conflicted and the last look was so, and the request is kept exactly when the call raised, which then has a cause; so a request whose call never reached the branch is never retired; the call lands at most one commit, and none unless it returned or a reply was lost; an undisturbed eligible request is published exactly. |
| Gateway.RaceMeansUnpublishedIff | worker/supervisor_publication_gateway_core.py:804-910 | For every eligible request, every clean checkout of the branch and every last look at the request: over all scripts, re-reading of the request included, the answer that follows a conflict implies that no commit of the call is on the branch, if and only if at most one attempt is allowed. |
| Gateway.PublishedYetRaced | worker/git_store.py:720-755 | For two or more attempts: a script under which the call ends in a conflict with its own commit, and the request's exact command, on the branch. |
| Gateway.PublishedYetStale | worker/supervisor_publication_gateway_core.py:819-824 | For two or more attempts: a script in which nobody else commits, the request expires before the second attempt, and the answer is stale with the call's own commit on the branch. |
| Reconcile.Sidecar.ReconcileOne | worker/pending_report.py:498-670 | "reconciled", and "superseded" where the branch has the reports that were read or a race was lost first, mean the branch's record has this exact text, a report counter at or past the command and the lease gone; the sidecar stays open exactly when it was open and either the local record could not be read or the call raised, which then has a cause; it is reconciled exactly when the call returned; after a lost race it is closed as superseded exactly when the record could be reread and is settled at the head then checked out, else as conflict; a conflict published nothing; an undisturbed call writes exactly the report and state; a decided or closed sidecar publishes nothing. |
| Reconcile.AnswersForIff | worker/pending_report.py:526-547 | A local record, valid or not, is right to call every sidecar it holds settled, if and only if every report it counts is on the branch's record with the same text. |
| Reconcile.BackedIsSubMap | worker/pending_report.py:526-547 | For a valid local record that is to have its report files on the branch. |
| Reconcile.Sidecar.Reclassify | worker/pending_report.py:614-650 | After a lost race nothing more is published and the sidecar is always closed: "superseded" exactly when the record can be reread and is settled at the head, which is the synchronized one where the resynchronization succeeds and the checkout as it was otherwise. |
| Reconcile.SettledStays | worker/pending_report.py:578-590 | Once a commit of the branch has settled a report, its tip has. |
| Reconcile.UnsettledIsUnpublished | worker/pending_report.py:566-590 | Where `already_applied` is false at the tip, no commit of this reconciliation is on the branch. |
| Reconcile.UnpushedCommitReadsAsSuperseded | worker/pending_report.py:526-539 | For every history and every reconciliation commit made on it: a checkout still holding it unpushed classifies as superseded while the branch's record has no such report. |
| Reconcile.EditedTreeReadsAsSuperseded | worker/pending_report.py:526-539 | The same for a checkout of the branch whose working tree holds the files of a reconciliation that could not be committed. |
| Reconcile.ReplacementNeverReconciles | worker/pending_report.py:548-553 | The report of a command that replaced another is always a conflict for reconciliation. |
| Reconcile.ReplacementReports | worker/pending_report.py:548-553 | From any idle record with no command file above the latest command a run publish, manual priority, claim exists after which the completion lands and the reconciliation is a conflict. |
| PendingEvidence.ReadsBackIff | worker/bridge_common.py:52-58 | Text written and read back in text mode is the same if and only if it has no carriage return, on either platform. |
| PendingEvidence.PendingFiles.Save | worker/pending_report.py:360-418 | After a completed save, loading gives the report, or fails if it has a carriage return; after a save cut short it gives nothing, this report or what the old sidecar promised. |
| PendingEvidence.PendingFiles.Load | worker/pending_report.py:310-357 | Whatever is returned is the text the sidecar's hash promises and has no carriage return. |
| PhasedTask.ParseDeclaration | worker/phased_task.py:197-249 | The loop finds no declaration, or a malformed or repeated one, or the declared ordered prefix of A to D. |
| PhasedTask.SectionReader.Take | worker/phased_task.py:288-338 | One line updates the dict, list and flags exactly as one step of the pass, or is refused exactly where the pass refuses it. |
| PhasedTask.ParsePhasedTask | worker/phased_task.py:264-366 | The imperative parser computes the specified pass on every line sequence. |
| PhasedGrammar.AcceptsIffDerives | worker/phased_task.py:264-366 | A line sequence parses to a task if and only if it is well declared and some layout of the grammar spells it, with that layout's stripped section texts. |
| PhasedGrammar.RoundTrip | worker/phased_task.py:264-366 | Writing any well-formed task line by line and parsing what is read back returns that task, in every notation that reads the declaration and the markers as themselves and each line of the texts as one plain line. |
| PhasedGrammar.ParsedIsOk | worker/phased_task.py:179-183 | Everything the parser returns is well formed: an ordered phase prefix and non-empty stripped texts. |
| Checkpoint.RunDirectory.PrepareRuntime | worker/phased_task.py:814-863 | From a fresh directory, whatever write fails or kills the process, inspection fails or sees the initial record; it completes exactly when all five writes do, and then the directory holds exactly the stated texts, manifest and record. |
| Checkpoint.RunDirectory.WriteTransition | worker/phased_task.py:869-891 | The record is the old or the new one; success means both new files; an exception whose rollback goes through leaves both old; a directory that passed and is left with the new text and the old record fails inspection. |
| Checkpoint.RunDirectory.AdvancePhase | worker/phased_task.py:894-943 | However the call ends, inspection afterwards fails or the directory is, in every file, the old or the advanced one; half a transition fails; it completes exactly when unlocked, in order and its lock and two writes land; the lock stays exactly where the helper dies under it or cannot remove it. |
| Checkpoint.RunDirectory.CompleteFinalAcceptance | worker/phased_task.py:949-969 | The same for final acceptance: on completion the record is marked verified after its last phase and no other file changes. |
| Checkpoint.RunDirectory.SafeCompact | worker/phased_task.py:975-1023 | Deletes only for a published SUCCESS with verified final acceptance and no gate against it; the three large files go in order, a death or exception in between leaves a prefix of the deletions, and then inspection fails; it completes exactly when all three do. |
| Checkpoint.AdvancedInspects | worker/phased_task.py:716-777 | The record and projection an advance writes pass inspection together. |
| Checkpoint.InspectIff | worker/phased_task.py:716-777 | Inspection returns a record if and only if the directory is the one that record and its task belong to: snapshot, manifest, global text, the text of the current phase or of final acceptance, and no text of a later phase. |
| Checkpoint.InspectionPins | worker/phased_task.py:716-777 | Two directories that pass inspection with the same record are equal in every file, lock aside. |
| Checkpoint.TornFails | worker/phased_task.py:765-777 | A directory that passed fails once its current text alone has changed. |
| Checkpoint.ProgressIsEarned | worker/phased_task.py:597-655 | After any history of calls, crashes and rollbacks, progress that passes inspection was earned: an advance for each completed phase, in order, and the final acceptance after them. |
| Checkpoint.NeverBack | worker/phased_task.py:894-943 | From call to call the completed prefix grows by at most one and never shrinks, and a directory that has failed inspection never passes again. |
| Checkpoint.LockIsForever | worker/phased_task.py:430-457 | After a helper dies holding the lock every later call fails and nothing changes. |
| Checkpoint.SuccessMeansAllPhases | worker/bridge_worker.py:2153-2205 | A phased run reported SUCCESS advanced every declared phase in order and then verified final acceptance. |
| Lifecycle.RunLoop | worker/codex_lifecycle.py:497-674 | With E and G the execution and grace limits (at least 0.1 s) and d the sleep (at least 0.02 s) the loop ends within ceil(E/d) + ceil(G/d) + 1 polls, at the first poll that must end it or at which the guard, being due, refuses, with exactly the termination reason that this poll explains, and accepts the marker at the first poll before which the file kept still for the whole window. |
| Lifecycle.GuardIsAsked | worker/codex_lifecycle.py:655-674 | Any stretch of polls one guard interval long contains one that asks the guard. |
| Lifecycle.AskedApart | worker/codex_lifecycle.py:655-674 | Two polls that ask the guard are at least one interval apart. |
| Lifecycle.MarkerTracker.Observe | worker/codex_lifecycle.py:532-568 | The tracked candidate is the current maximal run of polls with one fingerprint; detection happens exactly at the first stable poll. |
| Lifecycle.CheckExits | worker/codex_lifecycle.py:599-674 | One poll's exits in source order end the loop exactly when the poll must end it or the guard, being due, refuses; otherwise the next asking is scheduled. |
| Lifecycle.BoundedCleanup | worker/codex_lifecycle.py:334-360 | Reports no error exactly when termination did not raise and the tree is seen drained before the deadline and before a query fails, within a bounded number of polls. |
| Lifecycle.RunCodexProcess | worker/codex_lifecycle.py:676-721 | A returned marker was read from a file with one fingerprint at every poll of a span at least as long as the window, or from the final file after no poll was stable; without an owner stop a marker is returned if and only if one of the two is there; an owner stop leaves none; the flags are exclusive and each is its termination reason; a cleanup counts as failed exactly when one was forced and termination raised or the tree was not seen drained in time; exit code, error text and outcome are stated for every way to end, and SUCCESS needs that marker to say so. |
| SupersedeGraph.Walk | worker/protocol_core.py:776-785 | The visited-set walk ends; it reports a cycle only if there is one, and always when its start is on one. |
| SupersedeGraph.SupersedeRelationErrors | worker/protocol_core.py:697-787 | Each error is reported if and only if what it means holds of the ids and the merged relation; a cycle iff one exists. |
| SupersedeGraph.CycleIsNeverAlone | worker/protocol_core.py:776-785 | A cycle never appears without a self or forward reference. |
| SupersedeGraph.NoErrorsIff | worker/protocol_core.py:697-787 | No error at all if and only if the ids are known, and the relation is injective, strictly decreasing, within known ids and not beyond the latest command. |
| SupersedeGraph.ChainsEnd | worker/protocol_core.py:776-785 | Then following the relation from any id ends. |
| SupersedeGraph.ChainsAreDisjoint | worker/protocol_core.py:764-775 | And two chains that meet are one chain. |
| Inbox.Gateway.RequestPaths | worker/supervisor_publication_gateway_core.py:572-624 | A page has no repeats, is in ring order after the cursor, holds exactly the candidates with fewer than the page size ahead of them, and moves the cursor to its last entry; the scan report gives the status of every listing and counts what was examined, offered, ignored and unsupported. |
| Inbox.PassedOverMovesUp | worker/supervisor_publication_gateway_core.py:609-622 | A request passed over has a whole page fewer ahead of it at the next scan, whatever was removed meanwhile, the cursor's own entry included. |
| Inbox.EveryRequestIsOffered | worker/supervisor_publication_gateway_core.py:609-622 | While none is added, ceil(n/k) consecutive scans offer every request still present. |
| Rotation.ChooseFocus | worker/supervisor_tools.py:73-117 | A plan is made exactly for a valid portfolio, eligible ids within the ring and a justified preemption, else the first thing wrong is reported; its ring, anchor, focus and mode are as specified, and its eligible and deferred lists have exactly the specified projects in ring order. |
| Rotation.SelectionIsDistinct | worker/supervisor_tools.py:84-101 | The ring holds every selected project once. |
| Rotation.FairShare | worker/supervisor_tools.py:102-108 | Over any full turn of consecutive hours an eligible project is the focus exactly once plus once for every ineligible slot directly before it. |
| Rotation.EligibleAnchorStays | worker/supervisor_tools.py:106-108 | An eligible anchor is the focus whatever else is paused. |
| Retirement.InboxBranch.RetireTrackedPaths | worker/git_store.py:466-605 | Of a safe batch every path returned has its exact bytes at its destination and no longer at its source, at the tip of the branch, through other clients' commits, rejected pushes and retries, as long as no commit undoes what was retired on the tree it was made on; whatever is returned was to be reported at some commit of the call and includes everything to be reported on the tree last fetched; the call raises only after an attempt that raised or when every attempt lost the race; undisturbed, it returns exactly the requests that can be retired. |
| Retirement.ReportedIff | worker/git_store.py:515-555 | An item is to be moved or removed exactly when its source holds its bytes and its destination is absent or holds them; it counts as retired already exactly when no file of at most that size is at the source and the destination holds them. |
| Retirement.RetriesUntilPublished | worker/git_store.py:512-605 | Where the attempts before the n-th raise nothing and the n-th neither raises nor loses the race, no cause for the call to raise is left. |
| Retirement.ElsewhereIsPolite | worker/git_store.py:578-605 | Every commit that leaves the batch's requests and records alone is of that kind, however many of them are still in the inbox. |
| Retirement.CourtesyIsEnough | worker/git_store.py:578-605 | And nothing is asked of a commit beyond the one tree it was made on. |
| Retirement.SafeIff | worker/git_store.py:490-506 | The promise holds on every repository if and only if no destination stands for two contents and none is another item's source of the same content. |
| Retirement.UnsafeBatchLoses | worker/git_store.py:555-575 | For every other accepted batch there is a repository on which a reported request is lost. |
| Retirement.HistoryKept | worker/git_store.py:531-549 | A file that is no request of the batch keeps its bytes; no history record is overwritten. |
| Retirement.OthersUntouched | worker/git_store.py:555-575 | Every path that is neither a ready source nor a new destination is as it was. |
| Retirement.PollBatch | worker/supervisor_publication_gateway_core.py:545-570 | A poll's batch is always accepted, and is safe unless two files whose names differ only in case were retired under one outcome with different bytes. |
| Executor.QuotedReadsBack | worker/executor.py:114-122 | A quoted assignment reads back as its key and value, whatever the value contains. |
| Executor.EffectiveCodexArgs | worker/executor.py:335-404 | Without an override the defaults; with one, the groups it does not concern followed by its own, or a refusal exactly when a flag misses its value. |
| Executor.OverriddenIff | worker/executor.py:335-404 | A group is dropped exactly when, read alone, it chooses a model, an effort, or a service tier that the override names. |
| Executor.KeptIsTheRest | worker/executor.py:335-404 | Everything else is kept, in the original order. |
| Executor.ModelInlineIff | worker/executor.py:278-332 | An argument is a model flag with its value exactly where it is one of the two spellings followed by that whole value. |
| Executor.ExecutorProfile | worker/executor.py:278-332 | The profile is that of the token groups, the last of each winning and a direct model before a configured one. |
| Executor.ProfileIs | worker/executor.py:278-332 | Model, effort and service tier are those of the last group that chooses them, a model by flag going before a model by assignment wherever they stand, and are absent where no group does. |
| Executor.OverrideReadsBack | worker/executor.py:335-404 | The profile read back from the rewritten arguments is the override; a service tier it does not name stays the default one. |
| Executor.LastOverrideWins | worker/executor.py:335-404 | Rewriting an already rewritten argument vector equals rewriting the original, for every later override that concerns every key the earlier one did. |
| Executor.RewritingIsIdempotent | worker/executor.py:335-404 | In particular, rewriting an argument vector twice is rewriting it once. |
| SelfMaintenance.Validate | worker/executor.py:141-218 | The validation loop accepts exactly the specified permission profile. |
| SelfMaintenance.AcceptedSetsOnly | worker/executor.py:125-218 | Accepted arguments assign no sandbox mode, reviewer, network proxy, workspace or permission setting, and the three settings of the profile with no other value. |
| SelfMaintenance.DroppedIff | worker/executor.py:221-276 | The rewrite drops exactly the groups that validation would count or refuse by themselves. |
| SelfMaintenance.LeftIsTheRest | worker/executor.py:221-276 | Everything else is left, in the original order. |
| SelfMaintenance.SelfMaintenanceArgs | worker/executor.py:221-276 | Refuses exactly for a missing value, a workdir or legacy flag, no full-access flag, or a kept value that is that flag; otherwise the result passes validation. |
| SelfMaintenance.FinalValidation | worker/executor.py:221-276 | After an accepted rewrite the final validation fails if and only if a kept `-c` value is the full-access flag. |
| SelfMaintenance.ProfileSurvives | worker/executor.py:221-276 | The rewrite keeps the model, effort and service tier of every overridden argument vector whose model is not an option. |

## Left out

- Git subprocesses, file locks, path and link checks, atomic writes: one abstract step each, which succeeds, fails or has unknown outcome.
- The `push_effect_recorder` branch of `publish_cas` and the write-ahead journal it feeds: single-attempt, resting on effect records that are not part of this model.
- Selection and planning in worker/vnext_runtime/supervisor_portfolio.py: what reaches its two publishing calls is any snapshot and any plan.
- Safety.EligiblePlansOvertakeNothing: takes the statuses that the pass selects as given; the ranking among eligible projects is not modelled.
- Owner control, portfolio pause, egress and self-maintenance admission: they only refuse a step, so every run they allow is among the runs modelled.
- Entry into HUMAN_REQUIRED, DONE and FAILED: allowed in the first record of a run only.
- Timestamps, host names, error texts, reason texts and health files: they decide no modelled branch.
- Malformed JSON types in the state file and the bound on the length of the command history: a state is well typed here.
- Operations.AdoptHolds: does not call the supersede graph check, which can only refuse an adoption; that check is modelled by itself in `SupersedeGraph`.
- Gateway.ConsumeOne: does not tell apart a return of `publish_cas` that found the request applied from one that published it, as both retire the request; what the looks inside an attempt see is only whether they stop it.
- Recovery.ResolvableIff: paths, digests and line ends of the local files are not modelled, nor a pending report that already carries its own wrapper, which would have to contain its own digest.
- RecoveryJournal.JournalFile.Sweep: alerts, and a journal that cannot be read, are left out.
- Cluster.MayBegin: a call's snapshot is some record of the history checked out when it begins; one read from a local commit that was discarded meanwhile is left out.
- Gateway.Refusal: leaves out unreadable project paths and links, which are refused as invalid.
- SupersedeGraph.SupersedeRelationErrors: returns the errors as a set, so the order of the messages is not captured.
- PhasedTask.ParsePhasedTask: lines arrive classified, so the five regular expressions are not modelled; whitespace is the ASCII whitespace.
- Checkpoint.GatedOutcome: leaves out a run whose phased preparation already failed and the diagnostic texts.
- Lifecycle.RunCodexProcess: starts after launch; event records, log thresholds and file tails are not captured.
- GitStore.Checkout.PublishCas: a crash between two of its steps is modelled in `Cluster`, where every step is separate.
- Inbox.Gateway.RequestPaths: names are their sort keys; how a key is made from a name by case folding is not modelled.
- Rotation.ChooseFocus: sorts while selecting instead of after; project ids are ordered numbers.
- Retirement.InboxBranch.RetireTrackedPaths: other clients' commits are taken not to undo a retirement on the tree they are made on; a moved file's bytes are the checked ones.
- SelfMaintenance.ProfileSurvives: model names that look like options are excluded, as the override validator excludes them.
- Dashboard, doctor, alerts, mail, Windows job objects, elevation, command lines, linters and redaction: input, output and pattern matching.
