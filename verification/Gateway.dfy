/** `supervisor_publication_gateway_core.py`: what one poll makes of one staged request. */
module Gateway {
  import opened Protocol
  import opened Operations
  import opened Runs
  import opened GitModel
  import opened Publication
  import opened Retries
  import opened GitStore
  import Safety

  /** `_freshness_reason`: expired, or some other reason. */
  datatype Freshness = Current | Expired | Broken

  datatype Answer = OnBranch | AlreadySeen | InvalidRequest | StaleRequest | ActiveProject | CasRace | ErrorSafe

  /** The request's command is canonical, with its exact bytes. */
  predicate Holds(t: Tree, pid: Pid, r: Request) {
    && pid in t
    && r.commandId in t[pid].commands && t[pid].commands[r.commandId] == r.command
    && t[pid].state.latestCommand >= r.commandId
  }

  /** The staged file, read again just before the call. */
  datatype Reread = Same | Changed | Unreadable

  /** What the gateway sees around one request: freshness before the first check, before the
      call and after a conflict, whether publication is allowed, and the owner's evidence. */
  datatype Looks = Looks(first: Freshness, allowed: bool, ownerEvidence: bool, second: Freshness, reread: Reread,
                         last: Freshness)

  /** The answer where freshness decides, else this one. */
  function Unless(look: Freshness, other: Option<Answer>): Option<Answer> {
    match look
    case Expired => Some(StaleRequest)
    case Broken => Some(InvalidRequest)
    case Current => other
  }

  function RereadAnswer(reread: Reread): Option<Answer> {
    match reread
    case Same => None
    case Changed => Some(CasRace)
    case Unreadable => Some(InvalidRequest)
  }

  /** The checks of the record, in order. */
  function RecordRefusal(p: Project, r: Request, allowed: bool, ownerEvidence: bool): Option<Answer>
    requires ValidRequest(r)
  {
    if PublishAlready(p, r) then Some(AlreadySeen)
    else if !allowed then Some(StaleRequest)
    else if Pending(p.state.status) || p.state.status == CodexRunning || p.state.activeRun.Some? then Some(ActiveProject)
    else if p.state.status != ReportReady && p.state.status != HumanRequired then Some(StaleRequest)
    else if r.expectedGeneration != p.state.generation + 1 then Some(StaleRequest)
    else if r.basedOnReport != p.state.latestReport then Some(StaleRequest)
    else if r.commandId != p.state.latestCommand + 1 then Some(StaleRequest)
    else if p.state.status == HumanRequired
            && !(p.state.humanRequired && r.source == ScheduledChatgpt && r.kind == Execute && ownerEvidence)
    then Some(StaleRequest)
    else if !PublishSlotFree(p, r) then Some(InvalidRequest)
    else if !PublicationPreflight(r.command, PublishedState(p.state, r), TargetStatus(r.kind), r.commandId)
    then Some(InvalidRequest)
    else None
  }

  /** Everything before the call of `publish_cas`: None goes on to it. */
  function Refusal(local: Option<Project>, r: Request, looks: Looks): Option<Answer>
    requires ValidRequest(r)
  {
    Unless(looks.first,
           if local.None? then Some(InvalidRequest)
           else
             var checked := RecordRefusal(local.value, r, looks.allowed, looks.ownerEvidence);
             if checked.Some? then checked else Unless(looks.second, RereadAnswer(looks.reread)))
  }

  /** The request was fresh, allowed and unchanged at every look before the call. */
  predicate Admitted(looks: Looks) {
    looks.first == Current && looks.allowed && looks.second == Current && looks.reread == Same
  }

  /** The checks are exactly what the operation is prepared by. */
  lemma RefusalIff(p: Project, r: Request, looks: Looks)
    requires ValidRequest(r)
    ensures Refusal(Some(p), r, looks).None? <==> Admitted(looks) && PublishPrepared(p, r, looks.ownerEvidence)
  {
    hide PublishSlotFree, PublicationPreflight, PublishAlready;
  }

  /** The record was looked at. */
  predicate Reached(local: Option<Project>, looks: Looks) {
    looks.first == Current && local.Some?
  }

  /** A command is waiting or running. */
  predicate Busy(s: State) {
    s.status == CommandReady || s.status == Finalizing || s.status == CodexRunning || s.activeRun.Some?
  }

  /** The request names the next command of this record, which may take one. */
  predicate NamesNext(s: State, r: Request, ownerEvidence: bool) {
    && r.commandId == s.latestCommand + 1 && r.basedOnReport == s.latestReport && r.expectedGeneration == s.generation + 1
    && (s.status == ReportReady
        || (s.status == HumanRequired && s.humanRequired && ownerEvidence && r.source == ScheduledChatgpt && r.kind == Execute))
  }

  /** The request's command file would be new, and its bytes pass the preflight. */
  predicate FilesOpen(p: Project, r: Request)
    requires ValidRequest(r)
  {
    PublishSlotFree(p, r) && PublicationPreflight(r.command, PublishedState(p.state, r), TargetStatus(r.kind), r.commandId)
  }

  /** The checks went this far: the request names the next command of an idle record. */
  predicate Named(local: Option<Project>, r: Request, looks: Looks) {
    Reached(local, looks) && !PublishAlready(local.value, r) && looks.allowed
    && !Busy(local.value.state) && NamesNext(local.value.state, r, looks.ownerEvidence)
  }

  /** When each answer is given before the call, whatever the order of the checks. */
  lemma RefusalTells(local: Option<Project>, r: Request, looks: Looks)
    requires ValidRequest(r)
    ensures var a := Refusal(local, r, looks);
            && (a == Some(AlreadySeen) <==> Reached(local, looks) && PublishAlready(local.value, r))
            && (a == Some(ActiveProject) <==>
                  Reached(local, looks) && !PublishAlready(local.value, r) && looks.allowed && Busy(local.value.state))
            && (a == Some(StaleRequest) <==>
                  || looks.first == Expired
                  || (Reached(local, looks) && !PublishAlready(local.value, r) && !looks.allowed)
                  || (Reached(local, looks) && !PublishAlready(local.value, r) && !Busy(local.value.state)
                      && !NamesNext(local.value.state, r, looks.ownerEvidence))
                  || (Named(local, r, looks) && FilesOpen(local.value, r) && looks.second == Expired))
            && (a == Some(InvalidRequest) <==>
                  || looks.first == Broken
                  || (looks.first == Current && local.None?)
                  || (Named(local, r, looks)
                      && (!FilesOpen(local.value, r) || looks.second == Broken
                          || (looks.second == Current && looks.reread == Unreadable))))
            && (a == Some(CasRace) <==>
                  Named(local, r, looks) && FilesOpen(local.value, r) && looks.second == Current && looks.reread == Changed)
            && (a == None <==>
                  Named(local, r, looks) && FilesOpen(local.value, r) && looks.second == Current && looks.reread == Same)
            && a != Some(OnBranch) && a != Some(ErrorSafe)
  {
    hide PublishSlotFree, PublicationPreflight, PublishAlready, ValidRequest;
  }

  /** `_RETIREABLE_OUTCOMES`: the request leaves the inbox. */
  predicate Retires(a: Answer) {
    a in {OnBranch, AlreadySeen, InvalidRequest, StaleRequest, ActiveProject, CasRace}
  }

  lemma PublishedIsAlready(op: Op, p: Project, q: Project)
    requires op.Publish? && Lands(op, p, q)
    ensures PublishAlready(q, op.request)
  {
  }

  lemma AlreadyHolds(log: History, head: History, pid: Pid, r: Request)
    requires ValidHistory(log) && head != [] && head <= log && pid in Tip(head) && PublishAlready(Tip(head)[pid], r)
    ensures Holds(Tip(log), pid, r)
  {
    var n := |head| - 1;
    assert log[n] == head[n];
    TipIsLater(log, n, pid);
    hide ValidHistory;
  }

  lemma ReturnedHolds(log: History, head: History, pid: Pid, op: Op)
    requires ValidHistory(log) && head != [] && head <= log && pid in Tip(head) && op.Publish? && Prepared(op)
    requires Already(op, Tip(head)[pid]) || (|head| > 1 && head[|head| - 1].change == Canonical(pid, op))
    ensures Holds(Tip(log), pid, op.request)
  {
    if !Already(op, Tip(head)[pid]) {
      var n := |head| - 1;
      assert log[n] == head[n] && FollowsAt(log, n);
      PublishedIsAlready(op, Tip(log[..n])[pid], log[n].tree[pid]);
    }
    AlreadyHolds(log, head, pid, op.request);
  }

  /** One commit more, which puts exactly the request's command and state in place. */
  predicate PublishedOn(before: History, log: History, pid: Pid, p: Project, r: Request)
    requires ValidRequest(r) && before != []
  {
    && |log| == |before| + 1
    && log[|before|].tree == Tip(before)[pid := WithCommand(p, PublishedState(p.state, r), r.commandId, r.command)]
  }

  lemma AtomicPublication(log: History, pid: Pid, op: Op, stamp: nat)
    requires log != [] && pid in Tip(log) && op.Publish? && op.snap == Tip(log)[pid] && Prepared(op)
    ensures var (r, after) := AtomicPublish(log, pid, op, stamp, false);
            r.Returned? && PublishedOn(log, after, pid, op.snap, op.request)
  {
  }

  lemma SeenHolds(log: History, head: History, pid: Pid, local: Project, r: Request)
    requires ValidHistory(log) && head <= log && RecordIn(head, pid, local) && PublishAlready(local, r)
    ensures Holds(Tip(log), pid, r)
  {
    var j :| 0 <= j < |head| && pid in head[j].tree && head[j].tree[pid] == local;
    AlreadyHolds(log, head[..j + 1], pid, r);
  }

  /** What the end of the publication is answered as; after a conflict the request's freshness
      is looked at once more. */
  function AnswerOf(end: Published, look: Freshness): Answer {
    match end
    case Returned(_) => OnBranch
    case Raised => ErrorSafe
    case _ => match look
      case Current => CasRace
      case Expired => StaleRequest
      case Broken => InvalidRequest
  }

  /** No push that was applied may have been answered as failed, nor, where the call ended in
      an error, left without a reply; a single attempt cannot lose a reply and still conflict. */
  ghost predicate RepliesKept(end: Published, retries: int, rounds: nat -> Round) {
    match end
    case Returned(_) => false
    case Raised =>
      forall k :: 0 <= k < retries ==> rounds(k).push != AppliedButReportedFailed && rounds(k).push != NoReply(true)
    case _ => retries <= 1 || forall k :: 0 <= k < retries ==> rounds(k).push != AppliedButReportedFailed
  }

  lemma KeptIsForeign(log: History, clone: Clone, pid: Pid, op: Op, retries: int, rounds: nat -> Round)
    requires log != [] && clone.head != [] && Prepared(op)
    requires var o := Calling(log, clone, pid, op, 0, retries, rounds, []);
             && RepliesKept(o.result, retries, rounds)
             && (forall k :: k in o.landed ==> k < retries && ToldAs(o.result, rounds(k).push))
             && Accounted(log, o.log, pid, op, Foreign(rounds, retries), o.landed != [])
    ensures var o := Calling(log, clone, pid, op, 0, retries, rounds, []);
            forall i :: |log| <= i < |o.log| ==> o.log[i] in Foreign(rounds, retries)
  {
    hide Prepared, Calling, Foreign;
    var o := Calling(log, clone, pid, op, 0, retries, rounds, []);
    if o.landed != [] {
      assert o.landed[0] in o.landed;
      if retries <= 1 && (o.result.Conflict? || o.result.Refused?) {
        OneAttemptConflicts(log, clone, pid, op, retries, rounds);
      }
    }
  }

  /** The publication of an eligible request. */
  method Submit(checkout: Checkout, pid: Pid, op: Op, retries: int, rounds: nat -> Round) returns (end: Published)
    requires checkout.Valid() && op.Publish? && Prepared(op)
    requires !checkout.dirty ==> RecordIn(checkout.head, pid, op.snap)
    modifies checkout, checkout.remote
    ensures checkout.Valid() && old(checkout.remote.log) <= checkout.remote.log
    ensures var o := Calling(old(checkout.remote.log), old(checkout.View()), pid, op, 0, retries, rounds, []);
            && end == o.result && checkout.remote.log == o.log && |o.landed| <= 1
            && Accounted(old(checkout.remote.log), checkout.remote.log, pid, op, Foreign(rounds, retries), o.landed != [])
    ensures RepliesKept(end, retries, rounds) ==>
      forall i :: |old(checkout.remote.log)| <= i < |checkout.remote.log| ==>
        checkout.remote.log[i] in Foreign(rounds, retries)
    ensures end.Returned? ==> Holds(Tip(checkout.remote.log), pid, op.request)
    ensures end == Raised ==> RaiseExplained(old(checkout.remote.log), old(checkout.View()), pid, retries, rounds)
    ensures retries >= 1 && Undisturbed(rounds(0)) && !rounds(0).writeFails
            && !old(checkout.dirty) && old(checkout.head) == old(checkout.remote.log)
            && pid in old(Tip(checkout.head)) && old(Tip(checkout.head))[pid] == op.snap ==>
      end.Returned? && PublishedOn(old(checkout.remote.log), checkout.remote.log, pid, op.snap, op.request)
  {
    hide Prepared, Already, Expected, ValidHistory, AtomicPublish, Undisturbed, Holds, PublishedOn, ValidRequest,
         Foreign, Calling, RecordIn, Accounted, RepliesKept, ToldAs, CloneOk, Balks, RaiseExplained, GoesOnTo;
    if retries >= 1 && checkout.head == checkout.remote.log && !checkout.dirty
       && pid in Tip(checkout.head) && Tip(checkout.head)[pid] == op.snap {
      AtomicPublication(checkout.remote.log, pid, op, rounds(0).stamp);
    }
    end := checkout.PublishCas(pid, op, retries, rounds);
    if RepliesKept(end, retries, rounds) {
      KeptIsForeign(old(checkout.remote.log), old(checkout.View()), pid, op, retries, rounds);
    }
    if end.Returned? {
      ReturnedHolds(checkout.remote.log, checkout.head, pid, op);
    }
  }

  /** `_consume_one`; `local` is the record read from the checkout, unreadable if None. */
  method ConsumeOne(checkout: Checkout, pid: Pid, r: Request, local: Option<Project>, looks: Looks, retries: int,
                    rounds: nat -> Round)
    returns (a: Answer)
    requires checkout.Valid() && ValidRequest(r)
    requires local.Some? && !checkout.dirty ==> RecordIn(checkout.head, pid, local.value)
    modifies checkout, checkout.remote
    ensures checkout.Valid() && old(checkout.remote.log) <= checkout.remote.log
    // an answer that retires the request as published is backed by the branch, for good
    ensures a == OnBranch ||
            (a == AlreadySeen && !old(checkout.dirty) && old(checkout.head) <= checkout.remote.log) ==>
      Holds(Tip(checkout.remote.log), pid, r)
    // a refusal before the call publishes nothing
    ensures Refusal(local, r, looks).Some? ==>
      a == Refusal(local, r, looks).value
      && checkout.remote.log == old(checkout.remote.log) && checkout.View() == old(checkout.View())
    // otherwise the call of `publish_cas` decides, and the branch takes at most one commit of it
    ensures Refusal(local, r, looks).None? ==>
      && local.Some? && Prepared(Publish(local.value, r, looks.ownerEvidence))
      && var op := Publish(local.value, r, looks.ownerEvidence);
      && var o := Calling(old(checkout.remote.log), old(checkout.View()), pid, op, 0, retries, rounds, []);
      && a == AnswerOf(o.result, looks.last) && checkout.remote.log == o.log && |o.landed| <= 1
      && Accounted(old(checkout.remote.log), checkout.remote.log, pid, op, Foreign(rounds, retries), o.landed != [])
      // and unless it returned, published nothing where no reply to a push was lost
      && (RepliesKept(o.result, retries, rounds) ==>
            forall i :: |old(checkout.remote.log)| <= i < |checkout.remote.log| ==>
              checkout.remote.log[i] in Foreign(rounds, retries))
    // the request is kept for another poll exactly when the call raised, and then for a reason
    ensures Retires(a) <==>
      Refusal(local, r, looks).Some?
      || Calling(old(checkout.remote.log), old(checkout.View()), pid, Publish(local.value, r, looks.ownerEvidence), 0, retries,
                 rounds, []).result != Raised
    ensures !Retires(a) ==>
      a == ErrorSafe && RaiseExplained(old(checkout.remote.log), old(checkout.View()), pid, retries, rounds)
    // so it is kept whenever nothing refused it and the branch could not be reached
    ensures Refusal(local, r, looks).None? && (retries < 1 || old(checkout.dirty) || rounds(0).fetch == FetchRaised) ==>
      !Retires(a)
    // what the call ended in, and how the request then looked, decide the answer
    ensures Refusal(local, r, looks).None? ==>
      var end := Calling(old(checkout.remote.log), old(checkout.View()), pid, Publish(local.value, r, looks.ownerEvidence), 0,
                         retries, rounds, []).result;
      && (a == OnBranch <==> end.Returned?)
      && (a == CasRace <==> (end.Conflict? || end.Refused?) && looks.last == Current)
      && (a == StaleRequest <==> (end.Conflict? || end.Refused?) && looks.last == Expired)
      && (a == InvalidRequest <==> (end.Conflict? || end.Refused?) && looks.last == Broken)
      && a != ActiveProject && a != AlreadySeen
    // an undisturbed eligible request is published, exactly
    ensures local.Some? && Admitted(looks) && PublishPrepared(local.value, r, looks.ownerEvidence) && retries >= 1
            && Undisturbed(rounds(0)) && !rounds(0).writeFails
            && !old(checkout.dirty) && old(checkout.head) == old(checkout.remote.log)
            && pid in old(Tip(checkout.head)) && old(Tip(checkout.head))[pid] == local.value ==>
      a == OnBranch && PublishedOn(old(checkout.remote.log), checkout.remote.log, pid, local.value, r)
  {
    hide Prepared, Already, Expected, ValidHistory, AtomicPublish, Undisturbed, Sync, PublishPrepared, PublishAlready,
         Holds, PublishedOn, ValidRequest, Foreign, Refusal, Calling, RecordIn, Accounted, RepliesKept, Admitted, RaiseExplained;
    var refusal := Refusal(local, r, looks);
    RefusalMeans(local, r, looks);
    if refusal.Some? {
      if refusal.value == AlreadySeen && !checkout.dirty && checkout.head <= checkout.remote.log {
        SeenHolds(checkout.remote.log, checkout.head, pid, local.value, r);
      }
      return refusal.value;
    }
    if retries < 1 || checkout.dirty || rounds(0).fetch == FetchRaised {
      NeverSynchronized(checkout.remote.log, checkout.View(), pid, Publish(local.value, r, looks.ownerEvidence), retries, rounds);
    }
    var end := Submit(checkout, pid, Publish(local.value, r, looks.ownerEvidence), retries, rounds);
    return AnswerOf(end, looks.last);
  }

  lemma RefusalMeans(local: Option<Project>, r: Request, looks: Looks)
    requires ValidRequest(r)
    ensures var refusal := Refusal(local, r, looks);
            && (refusal.None? ==> local.Some? && Prepared(Publish(local.value, r, looks.ownerEvidence)))
            && (local.Some? && Admitted(looks) && PublishPrepared(local.value, r, looks.ownerEvidence) ==> refusal.None?)
            && (refusal == Some(AlreadySeen) ==> local.Some? && PublishAlready(local.value, r))
            && (refusal.Some? ==> !refusal.value.OnBranch? && !refusal.value.ErrorSafe?)
  {
    if local.Some? {
      RefusalIff(local.value, r, looks);
    }
    hide PublishSlotFree, PublicationPreflight, PublishAlready;
  }

  // ------------------------------------------------- what a lost race tells

  /** Whatever the rest of the world does, a call that ends in a conflict, and so is answered
      `cas_race`, stale or invalid as the request then looks, published nothing. */
  ghost predicate RaceMeansUnpublished(log: History, clone: Clone, pid: Pid, op: Op, retries: int, look: Freshness)
    requires log != [] && clone.head != [] && Prepared(op)
  {
    forall rounds: nat -> Round ::
      var o := Calling(log, clone, pid, op, 0, retries, rounds, []);
      AnswerOf(o.result, look) == AnswerOf(Conflict, look) ==> o.landed == []
  }

  /** For an eligible request and a clean checkout of the branch, such an answer tells that
      nothing was published exactly when the call may make one attempt only. */
  lemma RaceMeansUnpublishedIff(log: History, clone: Clone, pid: Pid, r: Request, ownerEvidence: bool, retries: int,
                                look: Freshness)
    requires ValidHistory(log) && pid in Tip(log) && PublishPrepared(Tip(log)[pid], r, ownerEvidence)
    requires clone.head != [] && !clone.dirty && clone.head <= log
    ensures RaceMeansUnpublished(log, clone, pid, Publish(Tip(log)[pid], r, ownerEvidence), retries, look) <==> retries <= 1
  {
    hide PublishPrepared, Calling, ValidHistory;
    var op := Publish(Tip(log)[pid], r, ownerEvidence);
    if retries <= 1 {
      forall rounds: nat -> Round
        ensures var o := Calling(log, clone, pid, op, 0, retries, rounds, []);
                AnswerOf(o.result, look) == AnswerOf(Conflict, look) ==> o.landed == []
      {
        var end := Calling(log, clone, pid, op, 0, retries, rounds, []).result;
        if end.Conflict? || end.Refused? {
          OneAttemptConflicts(log, clone, pid, op, retries, rounds);
        }
      }
    } else {
      var rounds := PublishedYetRaced(log, clone, pid, r, ownerEvidence, retries);
      assert Calling(log, clone, pid, op, 0, retries, rounds, []).landed == [0];
    }
  }

  /** No claim is needed where the request expires before the second attempt: the call is then
      answered as stale, with its own commit alone on the branch. */
  lemma PublishedYetStale(log: History, clone: Clone, pid: Pid, r: Request, ownerEvidence: bool, retries: int)
    returns (rounds: nat -> Round)
    requires ValidHistory(log) && pid in Tip(log) && PublishPrepared(Tip(log)[pid], r, ownerEvidence)
    requires clone.head != [] && !clone.dirty && clone.head <= log
    requires retries >= 2
    ensures var op := Publish(Tip(log)[pid], r, ownerEvidence);
            var o := Calling(log, clone, pid, op, 0, retries, rounds, []);
            && AnswerOf(o.result, Expired) == StaleRequest && o.landed == [0]
            && |o.log| == |log| + 1 && o.log[|log|].change == Canonical(pid, op) && Holds(Tip(o.log), pid, r)
  {
    var p := Tip(log)[pid];
    var op := Publish(p, r, ownerEvidence);
    var q := Safety.PublishStep(op, p);
    var own := Commit(Tip(log)[pid := q], Canonical(pid, op), 0);
    var first := Round([], Fetched, Steady, 0, false, [], AppliedButReportedFailed, [], CleanupReply(CleanFetched, true));
    var second := Round([], Fetched, AtAlready, 0, false, [], Rejected, [], CleanupReply(CleanFetched, true));
    rounds := n => if n == 0 then first else second;
    assert Build(op, p) == Some(q);
    hide Lands, Prepared, Already, Expected, Build, PublishPrepared, ValidHistory, PublishedState, Holds;
    LostReply(log, clone, pid, op, q, own, first);
    BalkedAttempt(log + [own], pid, op, second);
    RoundsPlayed(log, log + [own], clone, pid, op, retries, rounds, first, second);
  }

  /** An attempt whose push is applied but reported as failed, and nothing else. */
  lemma LostReply(log: History, clone: Clone, pid: Pid, op: Op, q: Project, own: Commit, round: Round)
    requires log != [] && clone.head != [] && !clone.dirty && clone.head <= log
    requires Prepared(op) && pid in Tip(log) && !Already(op, Tip(log)[pid]) && Expected(op, Tip(log)[pid])
    requires Build(op, Tip(log)[pid]) == Some(q) && own == Commit(Tip(log)[pid := q], Canonical(pid, op), 0)
    requires round == Round([], Fetched, Steady, 0, false, [], AppliedButReportedFailed, [], CleanupReply(CleanFetched, true))
    ensures var h := log + [own];
            Attempting(log, clone, pid, op, 0, round) == Trial(None, h, Clone(h, h, false), true)
  {
    hide Prepared, Already, Expected, Build;
    var head := log + [own];
    assert Delivered(log, []) == log && Delivered(head, []) == head;
    assert log <= head && head != log;
  }

  lemma BalkedAttempt(log: History, pid: Pid, op: Op, round: Round)
    requires log != [] && Prepared(op) && pid in Tip(log) && op.Publish?
    requires round.beforeSync == [] && round.fetch == Fetched && round.balk == AtAlready
    ensures Attempting(log, Clone(log, log, false), pid, op, 1, round) == Trial(Some(Conflict), log, Clone(log, log, false), false)
  {
    hide Prepared, Already, Expected;
  }

  /** The failing run: the push is applied but reported as failed, a worker claims the command
      before the clean-up, and the second attempt finds neither its own commit applied nor the
      record it expected. */
  lemma PublishedYetRaced(log: History, clone: Clone, pid: Pid, r: Request, ownerEvidence: bool, retries: int)
    returns (rounds: nat -> Round)
    requires ValidHistory(log) && pid in Tip(log) && PublishPrepared(Tip(log)[pid], r, ownerEvidence)
    requires clone.head != [] && !clone.dirty && clone.head <= log
    requires retries >= 2
    ensures var o := Calling(log, clone, pid, Publish(Tip(log)[pid], r, ownerEvidence), 0, retries, rounds, []);
            && o.result == Conflict && o.landed == [0]
            && |o.log| == |log| + 2 && o.log[|log|].change == Canonical(pid, Publish(Tip(log)[pid], r, ownerEvidence))
            && Holds(Tip(o.log), pid, r)
  {
    var p := Tip(log)[pid];
    var op := Publish(p, r, ownerEvidence);
    TipInv(log, pid);
    var q := Safety.PublishStep(op, p);
    Safety.PublishOffersClaimable(op, p, q);
    var claim := Claim(q, WorkerRun(r.commandId, 0));
    var s := Safety.ClaimStep(claim, q);
    ClaimedLooksRaced(op, claim, p, q, s);
    var own := Commit(Tip(log)[pid := q], Canonical(pid, op), 0);
    var claimed := Commit(own.tree[pid := s], Canonical(pid, claim), 0);
    var first := Round([], Fetched, Steady, 0, false, [], AppliedButReportedFailed, [claimed], CleanupReply(CleanFetched, true));
    var second := Round([], Fetched, Steady, 0, false, [], Rejected, [], CleanupReply(CleanFetched, true));
    rounds := n => if n == 0 then first else second;
    assert Build(op, p) == Some(q);
    hide Lands, Prepared, Already, Expected, Build, PublishPrepared, ValidHistory, Claimable, PublishedState, ClaimedState, Holds;
    FirstAttempt(log, clone, pid, op, q, own, claimed, first);
    SecondAttempt(log + [own, claimed], pid, op, second);
    RoundsPlayed(log, log + [own, claimed], clone, pid, op, retries, rounds, first, second);
  }

  lemma FirstAttempt(log: History, clone: Clone, pid: Pid, op: Op, q: Project, own: Commit, claimed: Commit, round: Round)
    requires log != [] && clone.head != [] && !clone.dirty && clone.head <= log
    requires Prepared(op) && pid in Tip(log) && !Already(op, Tip(log)[pid]) && Expected(op, Tip(log)[pid])
    requires Build(op, Tip(log)[pid]) == Some(q) && own == Commit(Tip(log)[pid := q], Canonical(pid, op), 0)
    requires claimed.change.Canonical? && claimed.change.pid == pid && claimed.change.op.ReadsSnapshot()
    requires claimed.change.op.snap == q && pid in claimed.tree && Lands(claimed.change.op, q, claimed.tree[pid])
    requires claimed.tree == own.tree[pid := claimed.tree[pid]]
    requires round == Round([], Fetched, Steady, 0, false, [], AppliedButReportedFailed, [claimed], CleanupReply(CleanFetched, true))
    ensures var h := log + [own, claimed];
            Attempting(log, clone, pid, op, 0, round) == Trial(None, h, Clone(h, h, false), true)
  {
    hide Prepared, Already, Expected, Build, Lands;
    var head := log + [own];
    assert head[|head| - 1] == own;
    assert RecordIn(head, pid, q) by { assert head[|log|].tree[pid] == q; }
    assert Follows(head, claimed);
    assert Delivered(head, [claimed]) == Delivered(head + [claimed], [claimed][1..]);
    assert head + [claimed] == log + [own, claimed];
    assert Delivered(head, [claimed]) == log + [own, claimed];
    assert Delivered(log, []) == log;
    assert log <= head && head != log;
  }

  lemma SecondAttempt(log: History, pid: Pid, op: Op, round: Round)
    requires log != [] && Prepared(op) && pid in Tip(log) && !Already(op, Tip(log)[pid]) && !Expected(op, Tip(log)[pid])
    requires round.beforeSync == [] && round.fetch == Fetched
    ensures Attempting(log, Clone(log, log, false), pid, op, 1, round) == Trial(Some(Conflict), log, Clone(log, log, false), false)
  {
    hide Prepared, Already, Expected;
  }

  lemma RoundsPlayed(log: History, h: History, clone: Clone, pid: Pid, op: Op, retries: int, rounds: nat -> Round,
                     first: Round, second: Round)
    requires log != [] && h != [] && clone.head != [] && Prepared(op) && retries >= 2
    requires rounds(0) == first && rounds(1) == second
    requires Attempting(log, clone, pid, op, 0, first) == Trial(None, h, Clone(h, h, false), true)
    requires Attempting(h, Clone(h, h, false), pid, op, 1, second) == Trial(Some(Conflict), h, Clone(h, h, false), false)
    ensures Calling(log, clone, pid, op, 0, retries, rounds, []) == Outcome(Conflict, h, Clone(h, h, false), [0])
  {
    hide Prepared, Attempting;
    CallingEnds(log, clone, pid, op, 0, retries, rounds, []);
    CallingEnds(h, Clone(h, h, false), pid, op, 1, retries, rounds, [0]);
  }

  /** A lost race does not mean the request was not published: once its command has been
      claimed, the gateway's own publication no longer looks applied, nor expected. */
  lemma ClaimedLooksRaced(op: Op, claim: Op, p: Project, q: Project, s: Project)
    requires op.Publish? && claim.Claim? && Lands(op, p, q) && Lands(claim, q, s)
    ensures !Already(op, s) && !Expected(op, s)
  {
  }
}
