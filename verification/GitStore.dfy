/** `git_store.py`: one checkout publishing to the shared branch, step by step, as the
functions of `Publication` say. */
module GitStore {
  import opened Protocol
  import opened Operations
  import opened Runs
  import opened GitModel
  import opened Publication
  import opened Retries
  import Safety

  datatype PushEnd = Confirmed | Unknown | Discarded

  /** What the end of a push is for the attempt. */
  function PushResult(end: PushEnd, record: Project): Option<Published> {
    match end
    case Confirmed => Some(Returned(record))
    case Unknown => Some(Raised)
    case Discarded => None
  }

  /** The commits added since `before` are other clients', but for the operation's own, which
      is there exactly if the branch took it. */
  ghost predicate Accounted(before: History, log: History, pid: Pid, op: Op, foreign: iset<Commit>, took: bool) {
    && (forall i :: |before| <= i < |log| ==> (took && log[i].change == Canonical(pid, op)) || log[i] in foreign)
    && (took ==> exists i :: |before| <= i < |log| && log[i].change == Canonical(pid, op))
  }

  ghost function Brought(round: Round): iset<Commit> {
    iset c: Commit | round.Brings(c)
  }

  /** What other clients push during the first `n` rounds. */
  ghost function Foreign(rounds: nat -> Round, n: int): iset<Commit> {
    iset k: int, c: Commit | 0 <= k < n && rounds(k).Brings(c) :: c
  }

  /** The caller's evidence changed in some attempt. */
  ghost predicate Balks(op: Op, rounds: nat -> Round, retries: int) {
    exists k: nat :: k < retries && BalkOf(op, rounds(k)) != Steady
  }

  lemma NeverBalks(op: Op, rounds: nat -> Round, retries: int)
    requires !op.Publish?
    ensures !Balks(op, rounds, retries)
  {
  }

  lemma AccountedThen(before: History, mid: History, log: History, pid: Pid, op: Op, rounds: nat -> Round, n: nat,
                      landed: bool, took: bool)
    requires before <= mid <= log && Accounted(before, mid, pid, op, Foreign(rounds, n), landed)
    requires Accounted(mid, log, pid, op, Brought(rounds(n)), took)
    ensures Accounted(before, log, pid, op, Foreign(rounds, n + 1), landed || took)
  {
    forall i | |before| <= i < |log|
      ensures ((landed || took) && log[i].change == Canonical(pid, op)) || log[i] in Foreign(rounds, n + 1)
    {
      if i < |mid| {
        assert log[i] == mid[i];
      }
    }
    if landed {
      var i :| |before| <= i < |mid| && mid[i].change == Canonical(pid, op);
      assert log[i] == mid[i];
    } else if took {
      var i :| |mid| <= i < |log| && log[i].change == Canonical(pid, op);
    }
  }

  lemma ChangedProject(log: History, pid: Pid, op: Op, i: nat)
    requires ValidHistory(log) && 0 < i < |log| && log[i].change == Canonical(pid, op)
    ensures pid in log[0].tree
  {
    hide Lands, Inv;
    SameProjects(log, i - 1);
    assert FollowsAt(log, i);
  }

  /** One operation value is the change of at most one commit. */
  lemma OwnOnce(log: History, pid: Pid, op: Op, i: nat, j: nat)
    requires ValidHistory(log) && 0 < i < j < |log|
    requires log[i].change == Canonical(pid, op)
    ensures log[j].change != Canonical(pid, op)
  {
    if log[j].change == Canonical(pid, op) {
      ChangedProject(log, pid, op, i);
      hide ValidHistory, Runs.Run;
      ProjectRuns(log, pid);
      Safety.OperationLandsOnce(Records(log, pid), Moves(log, pid), i - 1, j - 1);
    }
  }

  /** The branch takes a call's own commit at most once. */
  lemma TookOnce(before: History, mid: History, log: History, pid: Pid, op: Op, a: iset<Commit>, b: iset<Commit>)
    requires ValidHistory(log) && before != [] && before <= mid <= log
    requires Accounted(before, mid, pid, op, a, true)
    ensures !Accounted(mid, log, pid, op, b, true)
  {
    if Accounted(mid, log, pid, op, b, true) {
      var i :| |before| <= i < |mid| && mid[i].change == Canonical(pid, op);
      var j :| |mid| <= j < |log| && log[j].change == Canonical(pid, op);
      assert log[i] == mid[i];
      OwnOnce(log, pid, op, i, j);
    }
  }

  /** Pushing the one commit made on `parent`: the branch takes it only if it is still there. */
  lemma PushOwn(head: History, parent: History, log: History, c: Clone, reply: PushReply)
    requires ValidHistory(log) && ValidHistory(parent) && parent <= log
    requires c.head == head && |head| == |parent| + 1 && head[..|parent|] == parent
    requires Follows(parent, head[|parent|]) && CloneOk(c, log)
    ensures var p := Push(c, log, reply);
            && ValidHistory(p.log) && log <= p.log && CloneOk(p.clone, p.log)
            && p.clone.head == head && p.clone.dirty == c.dirty
            && (p.log == log || (log == parent && p.log == head))
            && (p.ok ==> head <= p.log)
  {
    hide Follows;
    if log <= head {
      if |log| == |head| {
        assert log == head;
      } else {
        assert log == parent;
        assert head == parent + [head[|parent|]];
        ValidExtension(parent, head[|parent|]);
      }
    }
  }

  /** A payload that builds lands, and always differs from the record it was built from, so
      there is something to commit. */
  lemma BuildLands(h: History, pid: Pid, op: Op, next: Project)
    requires ValidHistory(h) && pid in Tip(h) && Prepared(op)
    requires !Already(op, Tip(h)[pid]) && Expected(op, Tip(h)[pid]) && Build(op, Tip(h)[pid]) == Some(next)
    ensures Lands(op, Tip(h)[pid], next) && next != Tip(h)[pid]
  {
    TipInv(h, pid);
    LandsKeepsInv(op, Tip(h)[pid], next);
  }

  lemma AccountedJoin(before: History, mid: History, log: History, pid: Pid, op: Op, round: Round, took: bool)
    requires before <= mid <= log
    requires forall i :: |before| <= i < |mid| ==> round.Brings(mid[i])
    requires Accounted(mid, log, pid, op, Brought(round), took)
    ensures Accounted(before, log, pid, op, Brought(round), took)
  {
    forall i | |before| <= i < |log| ensures (took && log[i].change == Canonical(pid, op)) || round.Brings(log[i]) {
      if i < |mid| {
        assert log[i] == mid[i];
      }
    }
  }

  /** What a push, and the clean-up after it, add to the branch. */
  lemma PushAccounts(parent: History, met: History, taken: History, log: History, own: History, pid: Pid, op: Op, round: Round)
    requires parent <= met <= taken <= log && |own| == |parent| + 1 && own[|parent|].change == Canonical(pid, op)
    requires taken == met || (met == parent && taken == own)
    requires forall i :: |parent| <= i < |met| ==> met[i] in round.beforePush
    requires forall i :: |taken| <= i < |log| ==> log[i] in round.beforeCleanup
    ensures Accounted(parent, log, pid, op, Brought(round), taken != met)
  {
    forall i | |parent| <= i < |log| ensures (taken != met && log[i].change == Canonical(pid, op)) || round.Brings(log[i]) {
      if i < |met| {
        assert log[i] == met[i];
      } else if i < |taken| {
        assert log[i] == taken[i];
      }
    }
    if taken != met {
      assert log[|parent|] == taken[|parent|] == own[|parent|];
    }
  }

  /** A round in which nobody interferes and nothing is lost. */
  predicate Undisturbed(r: Round) {
    r.beforeSync == [] && r.fetch == Fetched && r.balk == Steady && r.beforePush == [] && r.push == Accepted
  }

  lemma CleanUpOk(c: Clone, log: History, reply: CleanupReply)
    requires CloneOk(c, log)
    ensures var after := CleanUp(c, log, reply);
            && CloneOk(after, log) && after.dirty == c.dirty
            && (reply.fetch == CleanRaised || !reply.reset ==> after.head == c.head)
            && (reply.fetch != CleanRaised && reply.reset ==> after.head == after.tracking)
            && after.tracking == (if reply.fetch == CleanFetched then log else c.tracking)
            && after.tracking <= log
  {
  }

  class Remote {
    var log: History

    ghost predicate Valid()
      reads this
      ensures Valid() ==> log != []
    {
      ValidHistory(log)
    }

    constructor (history: History)
      requires ValidHistory(history)
      ensures Valid() && log == history
    {
      log := history;
    }

    /** Other clients' pushes: a commit that does not follow the branch is rejected. */
    method Deliver(commits: seq<Commit>)
      requires Valid()
      modifies this
      ensures Valid() && log == Delivered(old(log), commits)
    {
      for n := 0 to |commits|
        invariant Valid() && Delivered(log, commits[n..]) == Delivered(old(log), commits)
      {
        assert commits[n..][1..] == commits[n + 1..];
        if Follows(log, commits[n]) {
          ValidExtension(log, commits[n]);
          log := log + [commits[n]];
        }
      }
    }
  }

  class Checkout {
    const remote: Remote
    var head: History
    var tracking: History
    var dirty: bool

    function View(): Clone
      reads this
    {
      Clone(head, tracking, dirty)
    }

    ghost predicate Valid()
      reads this, remote
      ensures Valid() ==> remote.log != [] && head != []
    {
      remote.Valid() && CloneOk(View(), remote.log)
    }

    /** A fresh clone of the branch. */
    constructor (origin: Remote)
      requires origin.Valid()
      ensures Valid() && remote == origin && head == tracking == origin.log && !dirty
    {
      remote := origin;
      head, tracking, dirty := origin.log, origin.log, false;
    }

    /** Fetch, compare, and leave the checkout at the remote head or refuse. */
    method SyncToRemote(discardWorkerCommit: bool, fetch: FetchReply) returns (ok: bool)
      requires Valid()
      modifies this
      ensures Valid()
      ensures var s := Sync(old(View()), remote.log, discardWorkerCommit, fetch);
              View() == s.clone && ok == s.Ready?
      ensures ok <==> !old(dirty) && fetch == Fetched && (discardWorkerCommit || old(head) <= remote.log)
      ensures ok ==> head == tracking == remote.log && !dirty
      ensures !ok ==> head == old(head) && dirty == old(dirty)
      ensures !ok ==> tracking == if !old(dirty) && fetch == Fetched then remote.log else old(tracking)
    {
      if dirty { return false; }
      if fetch == FetchRaised { return false; }
      tracking := remote.log;
      if !(head <= remote.log) && !discardWorkerCommit { return false; }
      if head != remote.log {
        head := remote.log;
      }
      return true;
    }

    /** Write and commit the new record of one project on top of the checked-out head. */
    method CommitPayloads(pid: Pid, op: Op, next: Project, stamp: nat, writeFails: bool) returns (ok: bool)
      requires Valid() && !dirty && head == remote.log && pid in Tip(head)
      requires EvidenceIn(head, pid, op) && Lands(op, Tip(head)[pid], next)
      modifies this
      ensures Valid() && head != [] && ok == !writeFails && tracking == old(tracking)
      ensures ok ==> !dirty && head == old(head) + [Commit(Tip(old(head))[pid := next], Canonical(pid, op), stamp)]
                     && Follows(old(head), head[|old(head)|])
      ensures !ok ==> dirty && head == old(head)
    {
      if writeFails {
        dirty := true;
        return false;
      }
      head := head + [Commit(Tip(head)[pid := next], Canonical(pid, op), stamp)];
      return true;
    }

    /** The snapshot the operation was prepared from is a record of the history checked out. */
    predicate ReadHere(pid: Pid, op: Op)
      reads this
    {
      !dirty ==> EvidenceIn(head, pid, op)
    }

    /** Push the one local commit; unless it is confirmed or its fate is unknown, discard it. */
    method PushOrDiscard(pid: Pid, op: Op, round: Round) returns (end: PushEnd)
      requires Valid() && !dirty && |head| == |remote.log| + 1 && head[..|remote.log|] == remote.log
      requires Follows(remote.log, head[|remote.log|]) && head[|remote.log|].change == Canonical(pid, op)
      requires pid in Tip(head)
      modifies this, remote
      ensures Valid() && !dirty && head != [] && old(remote.log) <= remote.log
      ensures var t := Pushing(old(remote.log), old(View()), pid, round);
              && remote.log == t.log && View() == t.clone && t.end == PushResult(end, Tip(old(head))[pid])
              && Accounted(old(remote.log), remote.log, pid, op, Brought(round), t.took)
      ensures end == Confirmed ==> head == old(head) && head <= remote.log
      ensures Undisturbed(round) ==> end == Confirmed && remote.log == head
    {
      hide Follows, ValidHistory, Lands, CleanUp, CloneOk, Accounted;
      ghost var parent, own := remote.log, head;
      remote.Deliver(round.beforePush);
      ghost var met := remote.log;
      CloneOkMonotone(View(), parent, met);
      var pushed := Push(View(), remote.log, round.push);
      PushOwn(head, parent, remote.log, View(), round.push);
      remote.log, tracking := pushed.log, pushed.clone.tracking;
      PushAccounts(parent, met, pushed.log, pushed.log, own, pid, op, round);
      if pushed.raised { return Unknown; }
      if pushed.ok { return Confirmed; }
      DiscardCommit(round);
      PushAccounts(parent, met, pushed.log, remote.log, own, pid, op, round);
      return if round.cleanup.fetch == CleanRaised then Unknown else Discarded;
    }

    /** After a failed push: an unchecked fetch and reset, meant to drop the local commit. */
    method DiscardCommit(round: Round)
      requires Valid()
      modifies this, remote
      ensures Valid() && head != []
      ensures remote.log == Delivered(old(remote.log), round.beforeCleanup)
      ensures View() == CleanUp(old(View()), remote.log, round.cleanup)
      // only a reset moves the head, and then to a commit the branch has
      ensures round.cleanup.fetch == CleanRaised || !round.cleanup.reset ==> head == old(head)
      ensures round.cleanup.fetch != CleanRaised && round.cleanup.reset ==>
        head == tracking <= remote.log && (round.cleanup.fetch == CleanFetched ==> head == remote.log)
      // without a fetch the tracking ref is the one before the push
      ensures round.cleanup.fetch != CleanFetched ==> tracking == old(tracking)
      ensures dirty == old(dirty)
    {
      hide ValidHistory, CloneOk, CleanUp;
      remote.Deliver(round.beforeCleanup);
      CloneOkMonotone(View(), old(remote.log), remote.log);
      CleanUpOk(View(), remote.log, round.cleanup);
      var cleaned := CleanUp(View(), remote.log, round.cleanup);
      head, tracking := cleaned.head, cleaned.tracking;
    }

    /** The first half of an attempt: synchronize, keeping hold of the evidence. */
    method Refresh(pid: Pid, op: Op, attempt: nat, round: Round) returns (ok: bool)
      requires Valid()
      requires attempt == 0 ==> ReadHere(pid, op)
      requires attempt > 0 ==> EvidenceIn(remote.log, pid, op)
      modifies this, remote
      ensures Valid() && remote.log == Delivered(old(remote.log), round.beforeSync)
      ensures var s := Sync(old(View()), remote.log, attempt > 0, round.fetch);
              View() == s.clone && ok == s.Ready?
      ensures ok ==> head == remote.log && !dirty && EvidenceIn(head, pid, op)
                     && !old(dirty) && (attempt == 0 ==> old(head) <= remote.log)
      ensures !ok ==> head == old(head) && dirty == old(dirty)
    {
      hide ValidHistory, EvidenceIn;
      remote.Deliver(round.beforeSync);
      ok := SyncToRemote(attempt > 0, round.fetch);
      if ok {
        if attempt > 0 {
          EvidenceMonotone(old(remote.log), head, pid, op);
        } else {
          EvidenceMonotone(old(head), head, pid, op);
        }
      }
    }

    /** One attempt: `None` asks for another. */
    method Attempt(pid: Pid, op: Op, attempt: nat, round: Round) returns (r: Option<Published>)
      requires Valid() && Prepared(op)
      requires attempt == 0 ==> ReadHere(pid, op)
      requires attempt > 0 ==> EvidenceIn(remote.log, pid, op)
      modifies this, remote
      ensures Valid() && old(remote.log) <= remote.log
      ensures var t := Attempting(old(remote.log), old(View()), pid, op, attempt, round);
              && r == t.end && remote.log == t.log && View() == t.clone
              && Accounted(old(remote.log), remote.log, pid, op, Brought(round), t.took)
      ensures r.Some? ==> Justified(pid, op, r.value, BalkOf(op, round) != Steady)
      ensures r.None? ==> EvidenceIn(remote.log, pid, op) && !old(dirty) && (attempt == 0 ==> old(head) <= remote.log)
      ensures old(dirty) || (attempt == 0 && !(old(head) <= remote.log)) ==>
        r == Some(Raised) && head == old(head) && dirty == old(dirty)
        && forall i :: |old(remote.log)| <= i < |remote.log| ==> round.Brings(remote.log[i])
      ensures Undisturbed(round) && !old(dirty) && (attempt > 0 || old(head) <= old(remote.log)) ==>
        var atomic := AtomicPublish(old(remote.log), pid, op, round.stamp, round.writeFails);
        r == Some(atomic.0) && remote.log == atomic.1
    {
      hide Prepared, Already, Expected, Lands, Follows, ValidHistory, EvidenceIn, Build, Accounted, NotAhead, CloneOk,
           Delivered, Pushing, Undisturbed, AtomicPublish, Checking;
      var synced := Refresh(pid, op, attempt, round);
      if !synced {
        AccountedSame(old(remote.log), remote.log, pid, op, round);
        UndisturbedSync(old(View()), old(remote.log), attempt, round);
        return Some(Raised);
      }
      ghost var fetched := remote.log;
      r := CheckAndPush(pid, op, round);
      AccountedJoin(old(remote.log), fetched, remote.log, pid, op, round, Checking(fetched, pid, op, round).took);
      UndisturbedSync(old(View()), old(remote.log), attempt, round);
    }

    /** The second half: the two predicates, the payload, the commit and the push. */
    method CheckAndPush(pid: Pid, op: Op, round: Round) returns (r: Option<Published>)
      requires Valid() && Prepared(op) && View() == Clone(remote.log, remote.log, false)
      requires EvidenceIn(remote.log, pid, op)
      modifies this, remote
      ensures Valid() && old(remote.log) <= remote.log
      ensures var t := Checking(old(remote.log), pid, op, round);
              && r == t.end && remote.log == t.log && View() == t.clone
              && Accounted(old(remote.log), remote.log, pid, op, Brought(round), t.took)
      ensures r.Some? ==> Justified(pid, op, r.value, BalkOf(op, round) != Steady)
      ensures r.None? ==> EvidenceIn(remote.log, pid, op)
      ensures Undisturbed(round) ==>
        var atomic := AtomicPublish(old(remote.log), pid, op, round.stamp, round.writeFails);
        r == Some(atomic.0) && remote.log == atomic.1
    {
      hide Prepared, Already, Expected, Lands, Follows, ValidHistory, EvidenceIn, Build, NotAhead, CloneOk,
           Pushing, Undisturbed;
      UndisturbedIsSteady(op, round);
      hide BalkOf, Accounted;
      AccountedNothing(remote.log, pid, op, Brought(round));
      if pid !in Tip(head) { return Some(Raised); }
      var current := Tip(head)[pid];
      var balk := BalkOf(op, round);
      if balk == AtAlready { return Some(Conflict); }
      if Already(op, current) { return Some(Returned(current)); }
      if balk == AtExpected || !Expected(op, current) { return Some(Conflict); }
      if balk == AtPayload { return Some(Published.Refused); }
      var built := Build(op, current);
      if built.None? { return Some(Published.Refused); }
      BuildLands(head, pid, op, built.value);
      r := CommitAndPush(pid, op, built.value, round);
    }

    /** Commit the payload, push it, and discard it where the push failed. */
    method CommitAndPush(pid: Pid, op: Op, next: Project, round: Round) returns (r: Option<Published>)
      requires Valid() && View() == Clone(remote.log, remote.log, false) && pid in Tip(head)
      requires EvidenceIn(remote.log, pid, op) && Lands(op, Tip(head)[pid], next)
      modifies this, remote
      ensures Valid() && old(remote.log) <= remote.log
      ensures var t := Committing(old(remote.log), pid, op, next, round);
              && r == t.end && remote.log == t.log && View() == t.clone
              && Accounted(old(remote.log), remote.log, pid, op, Brought(round), t.took)
      ensures r.Some? ==> r.value == Raised || (r.value == Returned(next) && Stands(pid, next)
                                                && |head| > 1 && head[|head| - 1].change == Canonical(pid, op))
      ensures r.None? ==> EvidenceIn(remote.log, pid, op)
      ensures Undisturbed(round) && !round.writeFails ==>
        r == Some(Returned(next))
        && remote.log == old(remote.log) + [Commit(Tip(old(remote.log))[pid := next], Canonical(pid, op), round.stamp)]
    {
      hide Lands, Follows, ValidHistory, EvidenceIn, NotAhead, CloneOk, Pushing, Undisturbed, Accounted;
      ghost var parent := remote.log;
      AccountedNothing(parent, pid, op, Brought(round));
      var committed := CommitPayloads(pid, op, next, round.stamp, round.writeFails);
      if !committed { return Some(Raised); }
      var end := PushOrDiscard(pid, op, round);
      EvidenceMonotone(parent, remote.log, pid, op);
      return PushResult(end, next);
    }

    /** The record stands at the clean head, which the branch holds. */
    ghost predicate Stands(pid: Pid, record: Project)
      reads this, remote
    {
      !dirty && head != [] && head <= remote.log && pid in Tip(head) && record == Tip(head)[pid]
    }

    /** What a call may claim when it ends. */
    ghost predicate Justified(pid: Pid, op: Op, r: Published, balked: bool)
      requires Prepared(op)
      reads this, remote
    {
      match r
      case Raised => true
      // a return is justified by a record of the branch
      case Returned(record) =>
        && Stands(pid, record)
        && (Already(op, record) || (|head| > 1 && head[|head| - 1].change == Canonical(pid, op)))
      // so is a conflict, at the very tip of the branch, unless the caller's evidence changed
      case Conflict =>
        && !dirty && head != [] && head == remote.log
        && pid in Tip(head)
        && (balked || (!Already(op, Tip(head)[pid]) && !Expected(op, Tip(head)[pid])))
      // and the builder refuses the very tip
      case Refused =>
        && !dirty && head != [] && head == remote.log
        && pid in Tip(head)
        && Expected(op, Tip(head)[pid]) && (balked || Build(op, Tip(head)[pid]).None?)
    }

    /** The call that began with `log` and `clone` has its attempt `attempt` ahead of it. */
    ghost predicate Underway(log: History, clone: Clone, pid: Pid, op: Op, attempt: nat, retries: int,
                             rounds: nat -> Round, landed: seq<nat>)
      requires log != [] && clone.head != [] && Prepared(op)
      reads this, remote
    {
      && Valid() && log <= remote.log
      && Calling(log, clone, pid, op, 0, retries, rounds, [])
         == Calling(remote.log, View(), pid, op, attempt, retries, rounds, landed)
      && Accounted(log, remote.log, pid, op, Foreign(rounds, attempt), landed != []) && |landed| <= 1
      && (attempt == 0 ==> View() == clone && remote.log == log && ReadHere(pid, op))
      && (attempt > 0 ==> EvidenceIn(remote.log, pid, op) && !clone.dirty && clone.head <= remote.log
                          && !(Undisturbed(rounds(0)) && clone.head <= log))
    }

    /** One pass of the loop; `None` asks for another. */
    method NextAttempt(ghost log: History, ghost clone: Clone, pid: Pid, op: Op, attempt: nat, retries: int,
                       rounds: nat -> Round, ghost landed: seq<nat>)
      returns (r: Option<Published>, ghost landed': seq<nat>)
      requires log != [] && clone.head != [] && Prepared(op) && attempt < retries
      requires Underway(log, clone, pid, op, attempt, retries, rounds, landed)
      modifies this, remote
      ensures Valid() && log <= remote.log
      ensures r.None? ==> Underway(log, clone, pid, op, attempt + 1, retries, rounds, landed')
      ensures r.Some? ==>
        && Calling(log, clone, pid, op, 0, retries, rounds, []) == Outcome(r.value, remote.log, View(), landed')
        && |landed'| <= 1 && Accounted(log, remote.log, pid, op, Foreign(rounds, retries), landed' != [])
        && Justified(pid, op, r.value, Balks(op, rounds, retries))
      ensures clone.dirty || !(clone.head <= remote.log) ==>
        && r == Some(Raised) && head == clone.head && dirty == clone.dirty
        && forall i :: |log| <= i < |remote.log| ==> rounds(0).Brings(remote.log[i])
      ensures Undisturbed(rounds(0)) && !clone.dirty && clone.head <= log ==>
        r.Some? && (r.value, remote.log) == AtomicPublish(log, pid, op, rounds(0).stamp, rounds(0).writeFails)
    {
      hide Prepared, EvidenceIn, ValidHistory, Foreign, AtomicPublish, Undisturbed, CloneOk, Attempting, Calling, Accounted;
      ghost var before, was := remote.log, View();
      CallingEnds(before, was, pid, op, attempt, retries, rounds, landed);
      r := Attempt(pid, op, attempt, rounds(attempt));
      ghost var took := Attempting(before, was, pid, op, attempt, rounds(attempt)).took;
      if landed != [] && took {
        TookOnce(log, before, remote.log, pid, op, Foreign(rounds, attempt), Brought(rounds(attempt)));
      }
      AccountedThen(log, before, remote.log, pid, op, rounds, attempt, landed != [], took);
      landed' := if took then landed + [attempt] else landed;
      ForeignGrows(log, remote.log, pid, op, rounds, attempt + 1, retries, landed' != []);
    }

    /** `publish_cas`: bounded attempts, each from the branch as it then is. */
    method PublishCas(pid: Pid, op: Op, retries: int, rounds: nat -> Round) returns (r: Published)
      requires Valid() && Prepared(op) && ReadHere(pid, op)
      modifies this, remote
      ensures Valid() && old(remote.log) <= remote.log
      ensures retries < 1 ==> r == Raised && remote.log == old(remote.log) && View() == old(View())
      // the branch takes the call's own commit at most once, and nothing else of its making
      ensures var o := Calling(old(remote.log), old(View()), pid, op, 0, retries, rounds, []);
              && r == o.result && remote.log == o.log && View() == o.clone
              && |o.landed| <= 1 && (forall k :: k in o.landed ==> k < retries && ToldAs(r, rounds(k).push))
              && Accounted(old(remote.log), remote.log, pid, op, Foreign(rounds, retries), o.landed != [])
      ensures Justified(pid, op, r, Balks(op, rounds, retries))
      // attempts that lose their push are followed by others, up to the last one allowed
      ensures GoesOnTo(old(remote.log), old(View()), pid, op, retries, rounds, r, remote.log)
      // and a call raises for a reason
      ensures r == Raised ==> RaiseExplained(old(remote.log), old(View()), pid, retries, rounds)
      // an unresolved local commit or an edited tree is kept, and nothing of it is published
      ensures old(dirty) || !(old(head) <= remote.log) ==>
        && r == Raised && head == old(head) && dirty == old(dirty)
        && forall i :: |old(remote.log)| <= i < |remote.log| ==> rounds(0).Brings(remote.log[i])
      // and where nobody interferes, the whole call is one compare-and-swap
      ensures retries >= 1 && Undisturbed(rounds(0)) && !old(dirty) && old(head) <= old(remote.log) ==>
        (r, remote.log) == AtomicPublish(old(remote.log), pid, op, rounds(0).stamp, rounds(0).writeFails)
    {
      hide Prepared, EvidenceIn, ValidHistory, Foreign, AtomicPublish, Undisturbed, CloneOk, Attempting, Calling, Accounted,
           GoesOnTo, RaiseExplained;
      ghost var log, clone := remote.log, View();
      ghost var landed: seq<nat> := [];
      CallingEnds(log, clone, pid, op, 0, retries, rounds, landed);
      LandedMeans(log, clone, pid, op, 0, retries, rounds, []);
      CallGoesOn(log, clone, pid, op, retries, rounds);
      if Calling(log, clone, pid, op, 0, retries, rounds, []).result == Raised {
        RaisedMeans(log, clone, pid, op, retries, rounds);
      }
      AccountedNothing(log, pid, op, Foreign(rounds, 0));
      AccountedNothing(log, pid, op, Foreign(rounds, retries));
      if retries < 1 { return Raised; }
      var attempt := 0;
      while attempt < retries
        invariant 0 <= attempt <= retries
        invariant Underway(log, clone, pid, op, attempt, retries, rounds, landed)
      {
        var result;
        result, landed := NextAttempt(log, clone, pid, op, attempt, retries, rounds, landed);
        if result.Some? { return result.value; }
        attempt := attempt + 1;
      }
      CallingEnds(remote.log, View(), pid, op, attempt, retries, rounds, landed);
      return Raised;
    }
  }

  lemma AccountedNothing(log: History, pid: Pid, op: Op, foreign: iset<Commit>)
    ensures Accounted(log, log, pid, op, foreign, false)
  {
  }

  lemma AccountedSame(before: History, log: History, pid: Pid, op: Op, round: Round)
    requires forall i :: |before| <= i < |log| ==> round.Brings(log[i])
    ensures Accounted(before, log, pid, op, Brought(round), false)
  {
  }

  lemma ForeignGrows(before: History, log: History, pid: Pid, op: Op, rounds: nat -> Round, n: nat, m: nat, took: bool)
    requires n <= m && Accounted(before, log, pid, op, Foreign(rounds, n), took)
    ensures Accounted(before, log, pid, op, Foreign(rounds, m), took)
  {
  }

  lemma UndisturbedIsSteady(op: Op, round: Round)
    ensures Undisturbed(round) ==> BalkOf(op, round) == Steady
  {
  }

  lemma UndisturbedSync(c: Clone, log: History, attempt: nat, round: Round)
    requires log != []
    ensures Undisturbed(round) ==> Delivered(log, round.beforeSync) == log
    ensures Undisturbed(round) && !c.dirty && (attempt > 0 || c.head <= log) ==> Sync(c, log, attempt > 0, round.fetch).Ready?
  {
  }
}
