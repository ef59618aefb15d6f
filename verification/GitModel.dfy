/** The shared branch as a log of commits, and one checkout of it.

A commit is known by its whole history, as a Git object name is: two checkouts are at the
same commit exactly when their histories are equal, and a push is accepted exactly when the
remote history is a prefix of the pushed one.  The stamp stands for author, date and
message, so that equal trees committed twice are different commits. */
module GitModel {
  import opened Protocol
  import opened Operations
  import opened Runs

  type Pid = nat

  type Tree = map<Pid, Project>

  datatype Change =
    | Canonical(pid: Pid, op: Op)
    | StagedFile(pid: Pid, id: int, command: Command)
    | NoProject

  datatype Commit = Commit(tree: Tree, change: Change, stamp: nat)

  type History = seq<Commit>

  function Tip(h: History): Tree
    requires h != []
  {
    h[|h| - 1].tree
  }

  // ---------------------------------------------------------- valid history

  predicate RecordIn(h: History, pid: Pid, p: Project) {
    exists j :: 0 <= j < |h| && pid in h[j].tree && h[j].tree[pid] == p
  }

  /** The operation's evidence, if it read any, is a record some commit of `h` holds. */
  predicate EvidenceIn(h: History, pid: Pid, op: Op) {
    op.ReadsSnapshot() ==> RecordIn(h, pid, op.snap)
  }

  /** Commit `c`, made on top of `h`, changes at most one project, by one legal move. */
  predicate Follows(h: History, c: Commit)
    requires h != []
  {
    match c.change
    case NoProject => c.tree == Tip(h)
    case StagedFile(pid, id, command) =>
      && pid in Tip(h)
      && id !in Tip(h)[pid].commands
      && c.tree == Tip(h)[pid := Tip(h)[pid].(commands := Tip(h)[pid].commands[id := command])]
    case Canonical(pid, op) =>
      && pid in Tip(h)
      && EvidenceIn(h, pid, op)
      && pid in c.tree
      && c.tree == Tip(h)[pid := c.tree[pid]]
      && Lands(op, Tip(h)[pid], c.tree[pid])
  }

  ghost predicate FollowsAt(h: History, i: nat)
    requires 0 < i < |h|
  {
    Follows(h[..i], h[i])
  }

  ghost predicate ValidHistory(h: History) {
    && h != []
    && (forall pid :: pid in h[0].tree ==> Inv(h[0].tree[pid]))
    && forall i :: 0 < i < |h| ==> FollowsAt(h, i)
  }

  lemma EvidenceMonotone(h: History, g: History, pid: Pid, op: Op)
    requires EvidenceIn(h, pid, op) && h <= g
    ensures EvidenceIn(g, pid, op)
  {
    if op.ReadsSnapshot() {
      var j :| 0 <= j < |h| && pid in h[j].tree && h[j].tree[pid] == op.snap;
      assert g[j] == h[j];
    }
  }

  lemma ValidExtension(h: History, c: Commit)
    requires ValidHistory(h) && Follows(h, c)
    ensures ValidHistory(h + [c])
  {
    var g := h + [c];
    forall i | 0 < i < |g| ensures FollowsAt(g, i) {
      if i < |h| {
        assert FollowsAt(h, i);
        assert g[..i] == h[..i];
      } else {
        assert g[..i] == h;
      }
    }
  }

  lemma {:induction false} SameProjects(h: History, i: nat)
    requires ValidHistory(h) && i < |h|
    ensures h[i].tree.Keys == h[0].tree.Keys
  {
    if i > 0 {
      SameProjects(h, i - 1);
      assert FollowsAt(h, i);
      assert h[..i][i - 1] == h[i - 1];
    }
  }

  // ------------------------------------------- one project's view of the log

  ghost function Records(h: History, pid: Pid): (r: seq<Project>)
    requires ValidHistory(h) && pid in h[0].tree
    ensures |r| == |h| && forall i :: 0 <= i < |h| ==> pid in h[i].tree && r[i] == h[i].tree[pid]
  {
    forall i | 0 <= i < |h| ensures pid in h[i].tree {
      SameProjects(h, i);
    }
    seq(|h|, i requires 0 <= i < |h| => h[i].tree[pid])
  }

  function MoveOf(c: Change, pid: Pid): Move {
    match c
    case NoProject => Elsewhere
    case StagedFile(p, id, command) => if p == pid then Stage(id, command) else Elsewhere
    case Canonical(p, op) => if p == pid then Act(op) else Elsewhere
  }

  function Moves(h: History, pid: Pid): seq<Move>
    requires h != []
  {
    seq(|h| - 1, i requires 0 <= i < |h| - 1 => MoveOf(h[i + 1].change, pid))
  }

  lemma EvidenceInRecords(h: History, pid: Pid, op: Op, i: nat)
    requires ValidHistory(h) && pid in h[0].tree && i < |h| && EvidenceIn(h[..i + 1], pid, op) && op.ReadsSnapshot()
    ensures op.snap in Records(h, pid)[..i + 1]
  {
    hide ValidHistory;
    var g, r := h[..i + 1], Records(h, pid)[..i + 1];
    var j :| 0 <= j < |g| && pid in g[j].tree && g[j].tree[pid] == op.snap;
    assert r[j] == op.snap;
  }

  /** One commit, seen from one project whose earlier records are given. */
  lemma FollowsApplies(h: History, c: Commit, pid: Pid, records: seq<Project>)
    requires h != [] && Follows(h, c) && pid in Tip(h) && pid in c.tree
    requires records != [] && records[|records| - 1] == Tip(h)[pid]
    requires c.change.Canonical? && c.change.pid == pid && c.change.op.ReadsSnapshot() ==> c.change.op.snap in records
    ensures Applies(records, MoveOf(c.change, pid), c.tree[pid])
  {
    hide Lands;
  }

  lemma StepRuns(h: History, pid: Pid, i: nat)
    requires ValidHistory(h) && pid in h[0].tree && i < |Moves(h, pid)|
    ensures StepAt(Records(h, pid), Moves(h, pid), i)
  {
    var r, g, c := Records(h, pid), h[..i + 1], h[i + 1];
    assert FollowsAt(h, i + 1);
    assert g[i] == h[i] && r[..i + 1][i] == r[i];
    CommitEvidence(g, c);
    if c.change.Canonical? && c.change.pid == pid && c.change.op.ReadsSnapshot() {
      EvidenceInRecords(h, pid, c.change.op, i);
    }
    hide ValidHistory, Follows, Applies;
    FollowsApplies(g, c, pid, r[..i + 1]);
  }

  lemma CommitEvidence(h: History, c: Commit)
    requires h != [] && Follows(h, c)
    ensures c.change.Canonical? ==> EvidenceIn(h, c.change.pid, c.change.op)
  {
  }

  /** Each project, seen alone, is a run: commits to other projects leave it unchanged. */
  lemma ProjectRuns(h: History, pid: Pid)
    requires ValidHistory(h) && pid in h[0].tree
    ensures Run(Records(h, pid), Moves(h, pid))
  {
    hide StepAt, Inv;
    forall i | 0 <= i < |Moves(h, pid)| ensures StepAt(Records(h, pid), Moves(h, pid), i) {
      StepRuns(h, pid, i);
    }
  }

  lemma TipInv(h: History, pid: Pid)
    requires ValidHistory(h) && pid in Tip(h)
    ensures Inv(Tip(h)[pid])
  {
    SameProjects(h, |h| - 1);
    ProjectRuns(h, pid);
    Reachable(Records(h, pid), Moves(h, pid), |h| - 1);
  }

  /** Every record on the branch is an earlier one of the same project's run as its tip. */
  lemma TipIsLater(h: History, i: nat, pid: Pid)
    requires ValidHistory(h) && i < |h| && pid in h[i].tree
    ensures pid in Tip(h) && Later(h[i].tree[pid], Tip(h)[pid])
  {
    SameProjects(h, i);
    SameProjects(h, |h| - 1);
    ProjectRuns(h, pid);
    hide ValidHistory, Run, Later;
    AppendOnly(Records(h, pid), Moves(h, pid), i, |h| - 1);
  }

  // -------------------------------------------------------------- a checkout

  /** `head` is the checked-out commit, `tracking` the remote-tracking ref, `dirty` a
      tracked file edited but not committed. */
  datatype Clone = Clone(head: History, tracking: History, dirty: bool)

  /** `ahead == 0`: every local commit is on the fetched branch. */
  predicate NotAhead(c: Clone, log: History) {
    c.head <= log
  }

  datatype FetchReply = Fetched | FetchRaised

  datatype Synced = Ready(clone: Clone) | Refused(clone: Clone)

  /** `sync_to_remote`: refuses a dirty tree, a failed fetch, and unpushed commits unless
      the caller may discard them; otherwise leaves the checkout at the remote head. */
  function Sync(c: Clone, log: History, discard: bool, reply: FetchReply): Synced {
    if c.dirty || reply == FetchRaised then Refused(c)
    else if !NotAhead(c, log) && !discard then Refused(c.(tracking := log))
    else Ready(Clone(log, log, false))
  }

  /** What the caller sees of a push, and whether the remote took it. */
  datatype PushReply = Accepted | Rejected | AppliedButReportedFailed | NoReply(applied: bool)

  datatype Pushed = Pushed(log: History, clone: Clone, ok: bool, raised: bool)

  /** A fast-forward push: a remote that has moved on takes nothing, whatever is reported. */
  function Push(c: Clone, log: History, reply: PushReply): Pushed {
    var fastForward := log <= c.head;
    var taken := if fastForward then c.head else log;
    match reply
    case Accepted =>
      if fastForward then Pushed(taken, c.(tracking := c.head), true, false) else Pushed(log, c, false, false)
    case Rejected => Pushed(log, c, false, false)
    case AppliedButReportedFailed => Pushed(taken, c, false, false)
    case NoReply(applied) => Pushed(if applied then taken else log, c, false, true)
  }

  /** The remote takes a push exactly where it has not moved on and the reply says, or hides,
      that it was applied; only an acceptance counts as success, and moves the tracking ref. */
  lemma PushTells(c: Clone, log: History, reply: PushReply)
    ensures var p := Push(c, log, reply);
            var applied := reply == Accepted || reply == AppliedButReportedFailed || reply == NoReply(true);
            && p.log == (if log <= c.head && applied then c.head else log)
            && (p.ok <==> log <= c.head && reply == Accepted)
            && (p.raised <==> reply.NoReply?)
            && p.clone == (if p.ok then Clone(c.head, c.head, c.dirty) else c)
  {
  }

  datatype CleanupReply = CleanupReply(fetch: CleanupFetch, reset: bool)
  datatype CleanupFetch = CleanFetched | CleanFailed | CleanRaised

  /** After a failed push: an unchecked fetch and an unchecked reset to the tracking ref. */
  function CleanUp(c: Clone, log: History, reply: CleanupReply): Clone {
    var fetched := if reply.fetch == CleanFetched then c.(tracking := log) else c;
    if reply.fetch != CleanRaised && reply.reset then fetched.(head := fetched.tracking) else fetched
  }

  /** A checkout is never more than one commit away from the branch. */
  predicate CloneOk(c: Clone, log: History) {
    && c.head != [] && c.tracking != []
    && c.tracking <= log
    && (NotAhead(c, log) || (|c.head| > 1 && c.head[..|c.head| - 1] <= log))
  }

  lemma CloneOkMonotone(c: Clone, log: History, log': History)
    requires CloneOk(c, log) && log <= log'
    ensures CloneOk(c, log')
  {
  }
}
