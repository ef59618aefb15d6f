/** The steps of a racing client, taken without interruption, are one attempt of `publish_cas` as a
single call makes it, and its executions are those that the claims it returns allow. */
module ClusterCalls {
  import opened Protocol
  import opened Operations
  import opened Runs
  import opened GitModel
  import opened Publication
  import opened Cluster

  /** One attempt's replies, with nobody else in between. */
  function Alone(fetch: FetchReply, stamp: nat, writeFails: bool, push: PushReply, cleanup: CleanupReply): Round {
    Round([], fetch, Steady, stamp, writeFails, [], push, [], cleanup)
  }

  function FourSteps(w: World, c: ClientId, round: Round): World {
    var w1 := Step(w, SyncStep(c, round.fetch));
    var w2 := Step(w1, CheckStep(c, round.stamp, round.writeFails));
    var w3 := Step(w2, PushStep(c, round.push));
    Step(w3, CleanupStep(c, round.cleanup))
  }

  /** What the world is after an attempt that ended so. */
  ghost predicate Ended(w: World, after: World, c: ClientId, call: Call, t: Trial)
    requires t.clone.head != []
  {
    && after.log == t.log
    && after.drawn == w.drawn
    && after.clients == w.clients[c := Client(t.clone,
         if t.end.None? && call.attempt + 1 < call.retries then Some(call.(attempt := call.attempt + 1, point := AtSync)) else None)]
    && after.executions ==
       (if t.end.Some? && t.end.value.Returned? && Allowed(Tip(t.clone.head), call.pid, call.op).Some?
        then w.executions + [Allowed(Tip(t.clone.head), call.pid, call.op).value] else w.executions)
  }

  /** The world with this client's state and log replaced. */
  function With(w: World, log: History, c: ClientId, clone: Clone, call: Option<Call>): World {
    w.(log := log, clients := w.clients[c := Client(clone, call)])
  }

  /** The two steps after a commit: the push, and the clean-up where it failed. */
  lemma PushSteps(w: World, c: ClientId, log: History, head: History, call: Call, round: Round)
    requires log != [] && head != [] && call.pid in Tip(head)
    requires round == Alone(round.fetch, round.stamp, round.writeFails, round.push, round.cleanup)
    ensures var w2 := With(w, log, c, Clone(head, log, false), Some(call.(point := AtPush)));
            Ended(w, Step(Step(w2, PushStep(c, round.push)), CleanupStep(c, round.cleanup)), c, call,
                  Pushing(log, Clone(head, log, false), call.pid, round))
  {
    var clone := Clone(head, log, false);
    var w2 := With(w, log, c, clone, Some(call.(point := AtPush)));
    assert Delivered(log, []) == log;
    var pushed := Push(clone, log, round.push);
    assert Delivered(pushed.log, []) == pushed.log;
    hide Push, CleanUp, Allowed;
    PushTells(clone, log, round.push);
  }

  /** The checks: what does not commit ends the attempt there. */
  lemma CheckStops(w: World, c: ClientId, log: History, call: Call, round: Round)
    requires log != [] && Prepared(call.op) && BalkOf(call.op, round) == Steady && call.point == AtCheck
    requires || call.pid !in Tip(log) || Already(call.op, Tip(log)[call.pid]) || !Expected(call.op, Tip(log)[call.pid])
             || Build(call.op, Tip(log)[call.pid]).None?
             || (round.writeFails && Build(call.op, Tip(log)[call.pid]) != Some(Tip(log)[call.pid]))
    ensures var w1 := With(w, log, c, Clone(log, log, false), Some(call));
            Ended(w, Step(w1, CheckStep(c, round.stamp, round.writeFails)), c, call, Checking(log, call.pid, call.op, round))
            && Step(w1, CheckStep(c, round.stamp, round.writeFails)).clients[c].call.None?
  {
    hide Prepared, Already, Expected, Build, Allowed, BalkOf;
  }

  lemma CheckCommits(w: World, c: ClientId, log: History, call: Call, round: Round)
    requires log != [] && Prepared(call.op) && BalkOf(call.op, round) == Steady && call.point == AtCheck && !round.writeFails
    requires call.pid in Tip(log) && !Already(call.op, Tip(log)[call.pid]) && Expected(call.op, Tip(log)[call.pid])
    requires Build(call.op, Tip(log)[call.pid]).Some? && Build(call.op, Tip(log)[call.pid]).value != Tip(log)[call.pid]
    ensures var w1 := With(w, log, c, Clone(log, log, false), Some(call));
            var q := Build(call.op, Tip(log)[call.pid]).value;
            var head := log + [Commit(Tip(log)[call.pid := q], Canonical(call.pid, call.op), round.stamp)];
            && Step(w1, CheckStep(c, round.stamp, false)) == With(w, log, c, Clone(head, log, false), Some(call.(point := AtPush)))
            && Checking(log, call.pid, call.op, round) == Pushing(log, Clone(head, log, false), call.pid, round)
            && call.pid in Tip(head)
  {
    hide Prepared, Already, Expected, Build, BalkOf;
    var q := Build(call.op, Tip(log)[call.pid]).value;
    var head := log + [Commit(Tip(log)[call.pid := q], Canonical(call.pid, call.op), round.stamp)];
    assert Tip(head) == Tip(log)[call.pid := q];
    hide Pushing;
  }

  /** Steps of a client that has no call change nothing. */
  lemma Idle(w: World, c: ClientId, push: PushReply, cleanup: CleanupReply)
    requires c in w.clients && w.clients[c].call.None?
    ensures Step(w, PushStep(c, push)) == w && Step(w, CleanupStep(c, cleanup)) == w
  {
  }

  lemma IdleCheck(w: World, c: ClientId, stamp: nat, writeFails: bool)
    requires c in w.clients && w.clients[c].call.None?
    ensures Step(w, CheckStep(c, stamp, writeFails)) == w
  {
  }

  /** A refused synchronization ends the call... */
  lemma RefusedStep(w: World, c: ClientId, fetch: FetchReply)
    requires At(w, c, AtSync)
    requires Sync(w.clients[c].clone, w.log, w.clients[c].call.value.attempt > 0, fetch).Refused?
    ensures Step(w, SyncStep(c, fetch))
            == With(w, w.log, c, Sync(w.clients[c].clone, w.log, w.clients[c].call.value.attempt > 0, fetch).clone, None)
  {
  }

  /** ...and the attempt. */
  lemma RefusedAttempt(log: History, clone: Clone, pid: Pid, op: Op, attempt: nat, round: Round)
    requires log != [] && clone.head != [] && Prepared(op) && round.beforeSync == []
    requires Sync(clone, log, attempt > 0, round.fetch).Refused?
    ensures Attempting(log, clone, pid, op, attempt, round)
            == Trial(Some(Raised), log, Sync(clone, log, attempt > 0, round.fetch).clone, false)
  {
    hide Prepared, Checking;
    assert Delivered(log, []) == log;
  }

  lemma SyncRefuses(w: World, c: ClientId, round: Round)
    requires At(w, c, AtSync) && w.log != [] && w.clients[c].clone.head != [] && Prepared(w.clients[c].call.value.op)
    requires round == Alone(round.fetch, round.stamp, round.writeFails, round.push, round.cleanup)
    requires var client := w.clients[c];
             Sync(client.clone, w.log, client.call.value.attempt > 0, round.fetch).Refused?
    ensures var call := w.clients[c].call.value;
            Ended(w, FourSteps(w, c, round), c, call,
                  Attempting(w.log, w.clients[c].clone, call.pid, call.op, call.attempt, round))
  {
    hide Prepared, Step, Attempting, Sync, Allowed;
    var call := w.clients[c].call.value;
    RefusedStep(w, c, round.fetch);
    RefusedAttempt(w.log, w.clients[c].clone, call.pid, call.op, call.attempt, round);
    var w1 := Step(w, SyncStep(c, round.fetch));
    IdleCheck(w1, c, round.stamp, round.writeFails);
    Idle(w1, c, round.push, round.cleanup);
  }

  lemma SyncReady(w: World, c: ClientId, round: Round)
    requires At(w, c, AtSync) && w.log != [] && w.clients[c].clone.head != [] && Prepared(w.clients[c].call.value.op)
    requires round.beforeSync == []
    requires var client := w.clients[c];
             Sync(client.clone, w.log, client.call.value.attempt > 0, round.fetch).Ready?
    ensures var call := w.clients[c].call.value;
            && Step(w, SyncStep(c, round.fetch)) == With(w, w.log, c, Clone(w.log, w.log, false), Some(call.(point := AtCheck)))
            && Attempting(w.log, w.clients[c].clone, call.pid, call.op, call.attempt, round) == Checking(w.log, call.pid, call.op, round)
  {
    hide Prepared, Checking;
    assert Delivered(w.log, []) == w.log;
  }

  /** An uninterrupted attempt of a client in any reachable world is the attempt of the call, and
      another follows exactly where the call makes one. */
  lemma AttemptRefines(w: World, c: ClientId, fetch: FetchReply, stamp: nat, writeFails: bool, push: PushReply, cleanup: CleanupReply)
    requires WorldInv(w) && At(w, c, AtSync)
    ensures var call, round := w.clients[c].call.value, Alone(fetch, stamp, writeFails, push, cleanup);
            && w.log != [] && w.clients[c].clone.head != [] && Prepared(call.op)
            && Ended(w, FourSteps(w, c, round), c, call,
                     Attempting(w.log, w.clients[c].clone, call.pid, call.op, call.attempt, round))
  {
    var client, round := w.clients[c], Alone(fetch, stamp, writeFails, push, cleanup);
    var call := client.call.value;
    assert ClientOk(client, w.log);
    if Sync(client.clone, w.log, call.attempt > 0, fetch).Refused? {
      SyncRefuses(w, c, round);
    } else {
      hide WorldInv, ClientOk, Prepared, Already, Expected, Build, Attempting, Checking, Pushing, Step, Sync, Ended, ValidHistory;
      SyncReady(w, c, round);
      AfterSync(w, c, round);
    }
  }

  /** The attempt will commit. */
  predicate WillCommit(log: History, call: Call, round: Round)
    requires log != [] && Prepared(call.op)
  {
    call.pid in Tip(log) && !Already(call.op, Tip(log)[call.pid]) && Expected(call.op, Tip(log)[call.pid])
    && Build(call.op, Tip(log)[call.pid]).Some? && !round.writeFails
  }

  lemma SameCall(w: World, after: World, c: ClientId, call: Call, t: Trial)
    requires t.clone.head != [] && Ended(w, after, c, call.(point := AtCheck), t)
    ensures Ended(w, after, c, call, t)
  {
  }

  lemma AfterSyncCommits(w: World, c: ClientId, call: Call, round: Round)
    requires ValidHistory(w.log) && Prepared(call.op) && call.point == AtCheck && WillCommit(w.log, call, round)
    requires round == Alone(round.fetch, round.stamp, round.writeFails, round.push, round.cleanup)
    ensures var w1 := With(w, w.log, c, Clone(w.log, w.log, false), Some(call));
            var w2 := Step(w1, CheckStep(c, round.stamp, round.writeFails));
            Ended(w, Step(Step(w2, PushStep(c, round.push)), CleanupStep(c, round.cleanup)), c, call,
                  Checking(w.log, call.pid, call.op, round))
  {
    AlwaysDiffers(w.log, call.pid, call.op);
    hide ValidHistory, Prepared, Already, Expected, Build, Checking, Pushing, Step, Ended;
    CheckCommits(w, c, w.log, call, round);
    var q := Build(call.op, Tip(w.log)[call.pid]).value;
    PushSteps(w, c, w.log, w.log + [Commit(Tip(w.log)[call.pid := q], Canonical(call.pid, call.op), round.stamp)], call, round);
  }

  lemma AfterSyncStops(w: World, c: ClientId, call: Call, round: Round)
    requires ValidHistory(w.log) && Prepared(call.op) && call.point == AtCheck && !WillCommit(w.log, call, round)
    requires round == Alone(round.fetch, round.stamp, round.writeFails, round.push, round.cleanup)
    ensures var w1 := With(w, w.log, c, Clone(w.log, w.log, false), Some(call));
            var w2 := Step(w1, CheckStep(c, round.stamp, round.writeFails));
            Ended(w, Step(Step(w2, PushStep(c, round.push)), CleanupStep(c, round.cleanup)), c, call,
                  Checking(w.log, call.pid, call.op, round))
  {
    var w1 := With(w, w.log, c, Clone(w.log, w.log, false), Some(call));
    if call.pid in Tip(w.log) && !Already(call.op, Tip(w.log)[call.pid]) && Expected(call.op, Tip(w.log)[call.pid])
       && Build(call.op, Tip(w.log)[call.pid]).Some? {
      AlwaysDiffers(w.log, call.pid, call.op);
    }
    CheckStops(w, c, w.log, call, round);
    hide ValidHistory, Prepared, Already, Expected, Build, Checking, Step, Ended;
    var w2 := Step(w1, CheckStep(c, round.stamp, round.writeFails));
    StillClient(w1, c, round.stamp, round.writeFails);
    Idle(w2, c, round.push, round.cleanup);
  }

  lemma StillClient(w: World, c: ClientId, stamp: nat, writeFails: bool)
    requires At(w, c, AtCheck)
    ensures c in Step(w, CheckStep(c, stamp, writeFails)).clients
  {
    hide Prepared, Already, Expected, Build, Allowed;
  }

  lemma AfterSync(w: World, c: ClientId, round: Round)
    requires ValidHistory(w.log) && At(w, c, AtSync) && Prepared(w.clients[c].call.value.op)
    requires round == Alone(round.fetch, round.stamp, round.writeFails, round.push, round.cleanup)
    ensures var call := w.clients[c].call.value;
            var w1 := With(w, w.log, c, Clone(w.log, w.log, false), Some(call.(point := AtCheck)));
            var w2 := Step(w1, CheckStep(c, round.stamp, round.writeFails));
            Ended(w, Step(Step(w2, PushStep(c, round.push)), CleanupStep(c, round.cleanup)), c, call,
                  Checking(w.log, call.pid, call.op, round))
  {
    var call := w.clients[c].call.value.(point := AtCheck);
    hide ValidHistory, Prepared, Checking, Step, Ended, WillCommit;
    if WillCommit(w.log, call, round) {
      AfterSyncCommits(w, c, call, round);
    } else {
      AfterSyncStops(w, c, call, round);
    }
    var w1 := With(w, w.log, c, Clone(w.log, w.log, false), Some(call));
    var w2 := Step(w1, CheckStep(c, round.stamp, round.writeFails));
    SameCall(w, Step(Step(w2, PushStep(c, round.push)), CleanupStep(c, round.cleanup)), c, w.clients[c].call.value,
             Checking(w.log, call.pid, call.op, round));
  }

  lemma AlwaysDiffers(log: History, pid: Pid, op: Op)
    requires ValidHistory(log) && Prepared(op) && pid in Tip(log) && !Already(op, Tip(log)[pid]) && Expected(op, Tip(log)[pid])
    requires Build(op, Tip(log)[pid]).Some?
    ensures Build(op, Tip(log)[pid]).value != Tip(log)[pid]
  {
    TipInv(log, pid);
    var p, q := Tip(log)[pid], Build(op, Tip(log)[pid]).value;
    assert Lands(op, p, q);
    hide ValidHistory, Prepared, Already, Expected, Build, Lands, Inv;
    LandsKeepsInv(op, p, q);
  }
}
