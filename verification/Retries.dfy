/** What a call of `publish_cas` does with the attempts it may make, told round by round. */
module Retries {
  import opened Protocol
  import opened Operations
  import opened Runs
  import opened GitModel
  import opened Publication
  import Safety

  // ------------------------------------------------------- deliveries

  /** Each commit was made on the branch that the ones before it leave. */
  predicate InOrder(log: History, commits: seq<Commit>)
    requires log != []
    decreases |commits|
  {
    commits == [] || (Follows(log, commits[0]) && InOrder(log + [commits[0]], commits[1..]))
  }

  /** Such commits all arrive, in order. */
  lemma {:induction false} DeliveredInFull(log: History, commits: seq<Commit>)
    requires log != [] && InOrder(log, commits)
    ensures Delivered(log, commits) == log + commits
    decreases |commits|
  {
    hide Follows;
    if commits == [] {
      assert log + commits == log;
    } else {
      Rejoin(log, commits);
      var next, rest := log + [commits[0]], commits[1..];
      assert Delivered(log, commits) == Delivered(next, rest);
      hide Delivered;
      DeliveredInFull(next, rest);
    }
  }

  lemma Rejoin(log: History, commits: seq<Commit>)
    requires commits != []
    ensures log + commits == (log + [commits[0]]) + commits[1..]
  {
  }

  lemma FollowsKeepsProjects(log: History, c: Commit)
    requires log != [] && Follows(log, c)
    ensures c.tree.Keys == Tip(log).Keys
  {
    hide Lands, EvidenceIn;
  }

  lemma {:induction false} DeliveredKeepsProjects(log: History, commits: seq<Commit>)
    requires log != []
    ensures Tip(Delivered(log, commits)).Keys == Tip(log).Keys
    decreases |commits|
  {
    hide Follows;
    if commits != [] {
      if Follows(log, commits[0]) {
        FollowsKeepsProjects(log, commits[0]);
        DeliveredKeepsProjects(log + [commits[0]], commits[1..]);
      } else {
        DeliveredKeepsProjects(log, commits[1..]);
      }
    }
  }

  // ------------------------------------------------------- lost attempts

  /** The branch after `n` rounds in which only other clients' commits arrived. */
  function Others(log: History, rounds: nat -> Round, n: nat): (r: History)
    requires log != []
    ensures log <= r
  {
    if n == 0 then log
    else
      var round := rounds(n - 1);
      Delivered(Delivered(Delivered(Others(log, rounds, n - 1), round.beforeSync), round.beforePush), round.beforeCleanup)
  }

  /** What attempt `n` then fetches. */
  function FetchedAt(log: History, rounds: nat -> Round, n: nat): (r: History)
    requires log != []
    ensures log <= r
  {
    Delivered(Others(log, rounds, n), rounds(n).beforeSync)
  }

  /** The operation may be published on this tip. */
  predicate Open(log: History, pid: Pid, op: Op)
    requires log != [] && Prepared(op)
  {
    pid in Tip(log) && !Already(op, Tip(log)[pid]) && Expected(op, Tip(log)[pid]) && Build(op, Tip(log)[pid]).Some?
  }

  /** The attempt on the fetched branch commits, loses its push without its being applied, and
      nothing raises on the way. */
  predicate LosesPush(fetched: History, pid: Pid, op: Op, round: Round)
    requires fetched != [] && Prepared(op)
  {
    && round.fetch == Fetched && BalkOf(op, round) == Steady && !round.writeFails && round.cleanup.fetch != CleanRaised
    && Open(fetched, pid, op)
    && (round.push == Rejected
        || ((round.push == Accepted || round.push == AppliedButReportedFailed)
            && !(Delivered(fetched, round.beforePush)
                 <= fetched + [Commit(Tip(fetched)[pid := Build(op, Tip(fetched)[pid]).value], Canonical(pid, op), round.stamp)])))
  }

  /** Nobody comes between fetch and push, and nothing is lost. */
  predicate Calm(op: Op, round: Round) {
    round.fetch == Fetched && BalkOf(op, round) == Steady && round.beforePush == [] && round.push == Accepted
  }

  lemma LostAttempt(log: History, clone: Clone, pid: Pid, op: Op, attempt: nat, round: Round)
    requires log != [] && clone.head != [] && Prepared(op) && !clone.dirty
    requires attempt > 0 || clone.head <= Delivered(log, round.beforeSync)
    requires LosesPush(Delivered(log, round.beforeSync), pid, op, round)
    ensures var t := Attempting(log, clone, pid, op, attempt, round);
            && t.end.None? && !t.clone.dirty && !t.took
            && t.log == Delivered(Delivered(Delivered(log, round.beforeSync), round.beforePush), round.beforeCleanup)
  {
    hide Prepared, Already, Expected, Build, Delivered;
  }

  lemma CalmPush(log: History, head: History, pid: Pid, round: Round)
    requires log != [] && log <= head && |head| == |log| + 1 && pid in Tip(head)
    requires round.beforePush == [] && round.push == Accepted
    ensures var t := Pushing(log, Clone(head, log, false), pid, round);
            t.end == Some(Returned(Tip(head)[pid])) && t.log == head
  {
    assert Delivered(log, []) == log;
  }

  lemma CalmChecks(fetched: History, pid: Pid, op: Op, round: Round)
    requires fetched != [] && Prepared(op) && Calm(op, round)
    ensures var t := Checking(fetched, pid, op, round);
            t.end.Some? && (t.end.value, t.log) == AtomicPublish(fetched, pid, op, round.stamp, round.writeFails)
  {
    hide Prepared, Already, Expected, Build, Pushing, BalkOf;
    if pid in Tip(fetched) && Expected(op, Tip(fetched)[pid]) && Build(op, Tip(fetched)[pid]).Some? {
      var q := Build(op, Tip(fetched)[pid]).value;
      var head := fetched + [Commit(Tip(fetched)[pid := q], Canonical(pid, op), round.stamp)];
      assert Tip(head) == Tip(fetched)[pid := q];
      CalmPush(fetched, head, pid, round);
    }
  }

  lemma CalmAttempt(log: History, clone: Clone, pid: Pid, op: Op, attempt: nat, round: Round)
    requires log != [] && clone.head != [] && Prepared(op) && !clone.dirty && Calm(op, round)
    requires attempt > 0 || clone.head <= Delivered(log, round.beforeSync)
    ensures var t := Attempting(log, clone, pid, op, attempt, round);
            && t.end.Some?
            && (t.end.value, t.log) == AtomicPublish(Delivered(log, round.beforeSync), pid, op, round.stamp, round.writeFails)
  {
    hide Prepared, Checking, AtomicPublish, Delivered;
    CalmChecks(Delivered(log, round.beforeSync), pid, op, round);
  }

  /** A call goes on through lost attempts: where the attempts before the n-th lose their pushes
      and the n-th is calm, the whole call is one compare-and-swap on what the n-th fetched. */
  lemma {:induction false} GoesOn(log: History, m: nat, clone: Clone, pid: Pid, op: Op, n: nat, retries: int,
                                  rounds: nat -> Round, landed: seq<nat>)
    requires log != [] && clone.head != [] && Prepared(op) && !clone.dirty && m <= n < retries
    requires m > 0 || clone.head <= FetchedAt(log, rounds, 0)
    requires forall k: nat :: m <= k < n ==> LosesPush(FetchedAt(log, rounds, k), pid, op, rounds(k))
    requires Calm(op, rounds(n))
    ensures var o := Calling(Others(log, rounds, m), clone, pid, op, m, retries, rounds, landed);
            && (o.result, o.log) == AtomicPublish(FetchedAt(log, rounds, n), pid, op, rounds(n).stamp, rounds(n).writeFails)
    decreases n - m
  {
    hide Prepared, Attempting, AtomicPublish, LosesPush, Calm, Delivered, Calling;
    var at := Others(log, rounds, m);
    CallingEnds(at, clone, pid, op, m, retries, rounds, landed);
    if m == n {
      CalmAttempt(at, clone, pid, op, m, rounds(m));
    } else {
      LostAttempt(at, clone, pid, op, m, rounds(m));
      var t := Attempting(at, clone, pid, op, m, rounds(m));
      assert t.log == Others(log, rounds, m + 1);
      GoesOn(log, m + 1, t.clone, pid, op, n, retries, rounds, landed);
    }
  }

  ghost predicate LostUntil(log: History, pid: Pid, op: Op, rounds: nat -> Round, n: nat)
    requires log != [] && Prepared(op)
  {
    forall k: nat :: k < n ==> LosesPush(FetchedAt(log, rounds, k), pid, op, rounds(k))
  }

  /** What a call from this checkout owes to the attempts it may make. */
  ghost predicate GoesOnTo(log: History, clone: Clone, pid: Pid, op: Op, retries: int, rounds: nat -> Round,
                           result: Published, after: History)
    requires log != [] && Prepared(op)
  {
    forall n: nat ::
      n < retries && LostUntil(log, pid, op, rounds, n) && Calm(op, rounds(n))
      && !clone.dirty && clone.head <= FetchedAt(log, rounds, 0) ==>
        (result, after) == AtomicPublish(FetchedAt(log, rounds, n), pid, op, rounds(n).stamp, rounds(n).writeFails)
  }

  lemma CallGoesOn(log: History, clone: Clone, pid: Pid, op: Op, retries: int, rounds: nat -> Round)
    requires log != [] && clone.head != [] && Prepared(op)
    ensures var o := Calling(log, clone, pid, op, 0, retries, rounds, []);
            GoesOnTo(log, clone, pid, op, retries, rounds, o.result, o.log)
  {
    hide Prepared, Calling, Calm, AtomicPublish, LosesPush;
    var o := Calling(log, clone, pid, op, 0, retries, rounds, []);
    forall n: nat | n < retries && LostUntil(log, pid, op, rounds, n) && Calm(op, rounds(n))
                    && !clone.dirty && clone.head <= FetchedAt(log, rounds, 0)
      ensures (o.result, o.log) == AtomicPublish(FetchedAt(log, rounds, n), pid, op, rounds(n).stamp, rounds(n).writeFails)
    {
      GoesOn(log, 0, clone, pid, op, n, retries, rounds, []);
    }
  }

  /** A lost reply is made good: where the first push is applied but reported as failed, and
      nobody else commits, the second attempt returns the very record that was pushed if the
      operation can recognize it, and conflicts if it cannot. */
  lemma LostReplyIsFound(log: History, clone: Clone, pid: Pid, op: Op, retries: int, rounds: nat -> Round)
    requires ValidHistory(log) && Prepared(op) && Open(log, pid, op) && retries >= 2
    requires clone.head != [] && !clone.dirty && clone.head <= log
    requires rounds(0).beforeSync == [] && rounds(0).fetch == Fetched && BalkOf(op, rounds(0)) == Steady
    requires !rounds(0).writeFails && rounds(0).beforePush == [] && rounds(0).push == AppliedButReportedFailed
    requires rounds(0).beforeCleanup == [] && rounds(0).cleanup.fetch != CleanRaised
    requires rounds(1).beforeSync == [] && rounds(1).fetch == Fetched && BalkOf(op, rounds(1)) == Steady
    ensures var q := Build(op, Tip(log)[pid]).value;
            var o := Calling(log, clone, pid, op, 0, retries, rounds, []);
            && o.log == log + [Commit(Tip(log)[pid := q], Canonical(pid, op), rounds(0).stamp)]
            && o.result == if Safety.Recognizable(op) then Returned(q) else Conflict
  {
    var p := Tip(log)[pid];
    var q := Build(op, p).value;
    var head := log + [Commit(Tip(log)[pid := q], Canonical(pid, op), rounds(0).stamp)];
    TipInv(log, pid);
    assert Lands(op, p, q);
    hide ValidHistory, Lands, Inv, Prepared, Already, Expected, Build;
    Safety.LandedIsAlready(op, p, q);
    AppliedAttempt(log, clone, pid, op, rounds(0));
    var t := Attempting(log, clone, pid, op, 0, rounds(0));
    assert Tip(head) == Tip(log)[pid := q];
    SecondLook(head, t.clone, pid, op, rounds(1));
    hide Attempting, Calling;
    CallingEnds(log, clone, pid, op, 0, retries, rounds, []);
    CallingEnds(head, t.clone, pid, op, 1, retries, rounds, if t.took then [0] else []);
  }

  lemma AppliedAttempt(log: History, clone: Clone, pid: Pid, op: Op, round: Round)
    requires log != [] && clone.head != [] && Prepared(op) && Open(log, pid, op) && !clone.dirty && clone.head <= log
    requires round.beforeSync == [] && round.fetch == Fetched && BalkOf(op, round) == Steady && !round.writeFails
    requires round.beforePush == [] && round.push == AppliedButReportedFailed
    requires round.beforeCleanup == [] && round.cleanup.fetch != CleanRaised
    ensures var t := Attempting(log, clone, pid, op, 0, round);
            && t.end.None? && !t.clone.dirty
            && t.log == log + [Commit(Tip(log)[pid := Build(op, Tip(log)[pid]).value], Canonical(pid, op), round.stamp)]
  {
    hide Prepared, Already, Expected, Build, BalkOf;
    var head := log + [Commit(Tip(log)[pid := Build(op, Tip(log)[pid]).value], Canonical(pid, op), round.stamp)];
    assert Delivered(log, []) == log && Delivered(head, []) == head;
    hide Delivered;
    assert log <= head && head != log;
  }

  /** An attempt on a branch where the operation is not expected. */
  lemma SecondLook(log: History, clone: Clone, pid: Pid, op: Op, round: Round)
    requires log != [] && clone.head != [] && Prepared(op) && !clone.dirty && pid in Tip(log)
    requires round.beforeSync == [] && round.fetch == Fetched && BalkOf(op, round) == Steady
    requires Already(op, Tip(log)[pid]) || !Expected(op, Tip(log)[pid])
    ensures var t := Attempting(log, clone, pid, op, 1, round);
            && t.log == log && !t.took
            && t.end == Some(if Already(op, Tip(log)[pid]) then Returned(Tip(log)[pid]) else Conflict)
  {
    hide Prepared, Already, Expected, Build, BalkOf;
  }

  // ------------------------------------------------------- why a call raises

  /** A push that was not confirmed, as far as its reply and the commits before it tell. */
  predicate Unconfirmed(round: Round) {
    round.push == Rejected || round.push == AppliedButReportedFailed || (round.push == Accepted && round.beforePush != [])
  }

  /** A failure that ends the call in this attempt. */
  predicate Fails(round: Round) {
    || round.fetch == FetchRaised
    || round.writeFails
    || round.push.NoReply?
    || (Unconfirmed(round) && round.cleanup.fetch == CleanRaised)
  }

  /** From attempt `m` on: one that fails after unconfirmed ones, or all of them unconfirmed. */
  ghost predicate FailsFrom(rounds: nat -> Round, m: nat, retries: int) {
    || (forall k: nat :: m <= k < retries ==> Unconfirmed(rounds(k)))
    || (exists k: nat :: FailsAt(rounds, m, k, retries))
  }

  ghost predicate FailsAt(rounds: nat -> Round, m: nat, k: nat, retries: int) {
    m <= k < retries && Fails(rounds(k)) && forall j: nat :: m <= j < k ==> Unconfirmed(rounds(j))
  }

  /** Why a call that may make attempts raises at all: an edited or unpushed checkout, a project
      that is not there, or the attempts. */
  ghost predicate RaiseExplained(log: History, clone: Clone, pid: Pid, retries: int, rounds: nat -> Round)
    requires log != []
  {
    || clone.dirty
    || (retries >= 1 && !(clone.head <= Delivered(log, rounds(0).beforeSync)))
    || pid !in Tip(log)
    || FailsFrom(rounds, 0, retries)
  }

  lemma PushKeepsProjects(log: History, clone: Clone, pid: Pid, round: Round)
    requires log != [] && clone.head != [] && clone.tracking != [] && pid in Tip(log) && pid in Tip(clone.head)
    ensures pid in Tip(Pushing(log, clone, pid, round).log)
  {
    hide Delivered, Push, CleanUp;
    var met := Delivered(log, round.beforePush);
    DeliveredKeepsProjects(log, round.beforePush);
    PushTells(clone, met, round.push);
    DeliveredKeepsProjects(Push(clone, met, round.push).log, round.beforeCleanup);
  }

  lemma PushEnds(log: History, clone: Clone, pid: Pid, round: Round)
    requires log != [] && clone.head != [] && clone.tracking != [] && pid in Tip(log) && pid in Tip(clone.head)
    requires log <= clone.head
    ensures var t := Pushing(log, clone, pid, round);
            && (t.end.None? ==> Unconfirmed(round) && t.clone.dirty == clone.dirty && pid in Tip(t.log))
            && (t.end == Some(Raised) ==> Fails(round))
  {
    PushKeepsProjects(log, clone, pid, round);
    assert Delivered(log, []) == log;
    hide Delivered, Push, CleanUp;
    PushTells(clone, Delivered(log, round.beforePush), round.push);
    CleanUpKeepsDirty(Push(clone, Delivered(log, round.beforePush), round.push).clone, Pushing(log, clone, pid, round).log, round.cleanup);
  }

  lemma CleanUpKeepsDirty(c: Clone, log: History, reply: CleanupReply)
    ensures CleanUp(c, log, reply).dirty == c.dirty
  {
  }

  lemma CheckEnds(fetched: History, pid: Pid, op: Op, round: Round)
    requires fetched != [] && Prepared(op) && pid in Tip(fetched)
    ensures var t := Checking(fetched, pid, op, round);
            && (t.end.None? ==> Unconfirmed(round) && !t.clone.dirty && pid in Tip(t.log))
            && (t.end == Some(Raised) ==> Fails(round))
  {
    hide Prepared, Already, Expected, Build, Pushing, Unconfirmed, BalkOf;
    var p := Tip(fetched)[pid];
    if !Already(op, p) && Expected(op, p) && Build(op, p).Some? {
      var head := fetched + [Commit(Tip(fetched)[pid := Build(op, p).value], Canonical(pid, op), round.stamp)];
      assert Tip(head) == Tip(fetched)[pid := Build(op, p).value];
      PushEnds(fetched, Clone(head, fetched, false), pid, round);
    }
  }

  lemma AttemptEnds(log: History, clone: Clone, pid: Pid, op: Op, attempt: nat, round: Round)
    requires log != [] && clone.head != [] && Prepared(op) && !clone.dirty && pid in Tip(log)
    requires attempt > 0 || clone.head <= Delivered(log, round.beforeSync)
    ensures var t := Attempting(log, clone, pid, op, attempt, round);
            && (t.end.None? ==> Unconfirmed(round) && !t.clone.dirty && pid in Tip(t.log))
            && (t.end == Some(Raised) ==> Fails(round))
  {
    hide Prepared, Delivered, Checking, Unconfirmed;
    DeliveredKeepsProjects(log, round.beforeSync);
    CheckEnds(Delivered(log, round.beforeSync), pid, op, round);
  }

  lemma {:induction false} RaisedFrom(log: History, clone: Clone, pid: Pid, op: Op, attempt: nat, retries: int,
                                      rounds: nat -> Round, landed: seq<nat>)
    requires log != [] && clone.head != [] && Prepared(op) && !clone.dirty && pid in Tip(log)
    requires attempt > 0 || retries < 1 || clone.head <= Delivered(log, rounds(0).beforeSync)
    requires Calling(log, clone, pid, op, attempt, retries, rounds, landed).result == Raised
    ensures FailsFrom(rounds, attempt, retries)
    decreases retries - attempt
  {
    hide Prepared, Attempting, Delivered, Unconfirmed, Fails, Calling;
    CallingEnds(log, clone, pid, op, attempt, retries, rounds, landed);
    if attempt < retries {
      AttemptEnds(log, clone, pid, op, attempt, rounds(attempt));
      var t := Attempting(log, clone, pid, op, attempt, rounds(attempt));
      if t.end.Some? {
        assert FailsAt(rounds, attempt, attempt, retries);
      } else {
        RaisedFrom(t.log, t.clone, pid, op, attempt + 1, retries, rounds, if t.took then landed + [attempt] else landed);
        var next := attempt + 1;
        if k: nat :| FailsAt(rounds, next, k, retries) {
          assert FailsAt(rounds, attempt, k, retries);
        }
      }
    }
  }

  /** A call raises only for one of these reasons. */
  lemma RaisedMeans(log: History, clone: Clone, pid: Pid, op: Op, retries: int, rounds: nat -> Round)
    requires log != [] && clone.head != [] && Prepared(op)
    requires Calling(log, clone, pid, op, 0, retries, rounds, []).result == Raised
    ensures RaiseExplained(log, clone, pid, retries, rounds)
  {
    hide Prepared, Calling, Delivered, FailsFrom;
    if !clone.dirty && pid in Tip(log) && (retries < 1 || clone.head <= Delivered(log, rounds(0).beforeSync)) {
      RaisedFrom(log, clone, pid, op, 0, retries, rounds, []);
    }
  }

  /** A call that cannot synchronize raises at once, whatever else the script holds. */
  lemma NeverSynchronized(log: History, clone: Clone, pid: Pid, op: Op, retries: int, rounds: nat -> Round)
    requires log != [] && clone.head != [] && Prepared(op)
    requires || retries < 1 || clone.dirty || rounds(0).fetch == FetchRaised
             || !(clone.head <= Delivered(log, rounds(0).beforeSync))
    ensures var o := Calling(log, clone, pid, op, 0, retries, rounds, []);
            o.result == Raised && o.landed == []
  {
    hide Prepared, Delivered, Checking;
    CallingEnds(log, clone, pid, op, 0, retries, rounds, []);
    hide Calling;
  }
}
