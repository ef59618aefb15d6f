/** One call of `publish_cas` as a function of what the rest of the world does.

Before each step that looks at the remote, other clients' commits arrive, and every network
reply is given.  The script is arbitrary, so what holds of every script holds for every
interleaving and every reply. */
module Publication {
  import opened Protocol
  import opened Operations
  import opened GitModel

  /** Where a caller's own evidence, read again during the call, makes it stop. */
  datatype Balk = Steady | AtAlready | AtExpected | AtPayload

  datatype Round = Round(
    beforeSync: seq<Commit>,
    fetch: FetchReply,
    balk: Balk,
    stamp: nat,
    writeFails: bool,
    beforePush: seq<Commit>,
    push: PushReply,
    beforeCleanup: seq<Commit>,
    cleanup: CleanupReply)
  {
    predicate Brings(c: Commit) {
      c in beforeSync || c in beforePush || c in beforeCleanup
    }
  }

  /** `Refused` is an exception of the payload builder, `Raised` any other failure. */
  datatype Published = Returned(record: Project) | Conflict | Refused | Raised

  /** Only the gateway reads its staged request again; the others bind what they read once. */
  function BalkOf(op: Op, round: Round): Balk {
    if op.Publish? then round.balk else Steady
  }

  /** The branch after other clients' pushes: a commit that does not follow it is rejected. */
  function Delivered(log: History, commits: seq<Commit>): (r: History)
    requires log != []
    ensures log <= r
    ensures forall i :: |log| <= i < |r| ==> r[i] in commits
    decreases |commits|
  {
    if commits == [] then log
    else Delivered(if Follows(log, commits[0]) then log + [commits[0]] else log, commits[1..])
  }

  /** The end of an attempt, `None` where another follows; `took` tells whether the branch
      took the attempt's own commit. */
  datatype Trial = Trial(end: Option<Published>, log: History, clone: Clone, took: bool)

  /** Pushing the commit at the head, made on `log`, and discarding it if that failed. */
  function Pushing(log: History, clone: Clone, pid: Pid, round: Round): (t: Trial)
    requires log != [] && clone.head != [] && clone.tracking != [] && pid in Tip(clone.head)
    ensures t.log != [] && t.clone.head != []
  {
    var met := Delivered(log, round.beforePush);
    var pushed := Push(clone, met, round.push);
    var took := pushed.log != met;
    if pushed.raised then Trial(Some(Raised), pushed.log, pushed.clone, took)
    else if pushed.ok then Trial(Some(Returned(Tip(clone.head)[pid])), pushed.log, pushed.clone, took)
    else
      var after := Delivered(pushed.log, round.beforeCleanup);
      Trial(if round.cleanup.fetch == CleanRaised then Some(Raised) else None,
            after, CleanUp(pushed.clone, after, round.cleanup), took)
  }

  function Committing(log: History, pid: Pid, op: Op, next: Project, round: Round): (t: Trial)
    requires log != []
    ensures t.log != [] && t.clone.head != []
  {
    if round.writeFails then Trial(Some(Raised), log, Clone(log, log, true), false)
    else
      var commit := Commit(Tip(log)[pid := next], Canonical(pid, op), round.stamp);
      Pushing(log, Clone(log + [commit], log, false), pid, round)
  }

  /** The checks on the freshly synchronized branch, and the commit. */
  function Checking(log: History, pid: Pid, op: Op, round: Round): (t: Trial)
    requires log != [] && Prepared(op)
    ensures t.log != [] && t.clone.head != []
  {
    var clone := Clone(log, log, false);
    if pid !in Tip(log) then Trial(Some(Raised), log, clone, false)
    else
      var p := Tip(log)[pid];
      if BalkOf(op, round) == AtAlready then Trial(Some(Conflict), log, clone, false)
      else if Already(op, p) then Trial(Some(Returned(p)), log, clone, false)
      else if BalkOf(op, round) == AtExpected || !Expected(op, p) then Trial(Some(Conflict), log, clone, false)
      else if BalkOf(op, round) == AtPayload then Trial(Some(Published.Refused), log, clone, false)
      else match Build(op, p)
        case None => Trial(Some(Published.Refused), log, clone, false)
        case Some(q) => Committing(log, pid, op, q, round)
  }

  function Attempting(log: History, clone: Clone, pid: Pid, op: Op, attempt: nat, round: Round): (t: Trial)
    requires log != [] && clone.head != [] && Prepared(op)
    ensures t.log != [] && t.clone.head != []
  {
    var fetched := Delivered(log, round.beforeSync);
    match Sync(clone, fetched, attempt > 0, round.fetch)
    case Refused(refused) => Trial(Some(Raised), fetched, refused, false)
    case Ready(_) => Checking(fetched, pid, op, round)
  }

  /** A whole call; `landed` are the attempts whose own commit the branch took. */
  datatype Outcome = Outcome(result: Published, log: History, clone: Clone, landed: seq<nat>)

  function Calling(log: History, clone: Clone, pid: Pid, op: Op, attempt: nat, retries: int,
                   rounds: nat -> Round, landed: seq<nat>): Outcome
    requires log != [] && clone.head != [] && Prepared(op)
    decreases retries - attempt
  {
    if attempt >= retries then Outcome(Raised, log, clone, landed)
    else
      var t := Attempting(log, clone, pid, op, attempt, rounds(attempt));
      var landed' := if t.took then landed + [attempt] else landed;
      if t.end.Some? then Outcome(t.end.value, t.log, t.clone, landed')
      else Calling(t.log, t.clone, pid, op, attempt + 1, retries, rounds, landed')
  }

  /** Publication as one indivisible compare-and-swap on the branch. */
  function AtomicPublish(log: History, pid: Pid, op: Op, stamp: nat, writeFails: bool): (Published, History)
    requires log != [] && Prepared(op)
  {
    if pid !in Tip(log) then (Raised, log)
    else
      var p := Tip(log)[pid];
      if Already(op, p) then (Returned(p), log)
      else if !Expected(op, p) then (Conflict, log)
      else match Build(op, p)
        case None => (Published.Refused, log)
        case Some(q) =>
          if writeFails then (Raised, log)
          else (Returned(q), log + [Commit(Tip(log)[pid := q], Canonical(pid, op), stamp)])
  }

  /** The call from its beginning, for any arguments. */
  function CallOf(log: History, clone: Clone, pid: Pid, op: Op, retries: int, rounds: nat -> Round): Outcome {
    if log == [] || clone.head == [] || !Prepared(op) then Outcome(Raised, log, clone, [])
    else Calling(log, clone, pid, op, 0, retries, rounds, [])
  }

  /** One unfolding of the call. */
  lemma CallingEnds(log: History, clone: Clone, pid: Pid, op: Op, attempt: nat, retries: int,
                    rounds: nat -> Round, landed: seq<nat>)
    requires log != [] && clone.head != [] && Prepared(op)
    ensures var o := Calling(log, clone, pid, op, attempt, retries, rounds, landed);
            if attempt >= retries then o == Outcome(Raised, log, clone, landed)
            else
              var t := Attempting(log, clone, pid, op, attempt, rounds(attempt));
              var landed' := if t.took then landed + [attempt] else landed;
              o == if t.end.Some? then Outcome(t.end.value, t.log, t.clone, landed')
                   else Calling(t.log, t.clone, pid, op, attempt + 1, retries, rounds, landed')
  {
    hide Prepared, Attempting;
  }

  // ------------------------------------------------- how its own commit gets there

  /** How the push that the branch took may have been reported, where the call ends so. */
  predicate ToldAs(end: Published, reply: PushReply) {
    match end
    case Conflict => reply == AppliedButReportedFailed
    case Refused => reply == AppliedButReportedFailed
    case Raised => reply == AppliedButReportedFailed || reply == NoReply(true)
    case Returned(_) => reply == AppliedButReportedFailed || reply == Accepted
  }

  lemma TookMeans(log: History, clone: Clone, pid: Pid, op: Op, attempt: nat, round: Round)
    requires log != [] && clone.head != [] && Prepared(op)
    ensures var t := Attempting(log, clone, pid, op, attempt, round);
            && (t.took && t.end.None? ==> round.push == AppliedButReportedFailed)
            && (t.took && t.end.Some? ==> !t.end.value.Conflict? && !t.end.value.Refused? && ToldAs(t.end.value, round.push))
  {
    hide Prepared, Already, Expected, Build, Follows, Delivered;
  }

  /** Every attempt whose commit the branch took, other than the last one of a call that
      returned, was told that its push had failed or got no reply at all. */
  lemma {:induction false} LandedMeans(log: History, clone: Clone, pid: Pid, op: Op, attempt: nat, retries: int,
                                       rounds: nat -> Round, landed: seq<nat>)
    requires log != [] && clone.head != [] && Prepared(op)
    requires forall k :: k in landed ==> k < retries && rounds(k).push == AppliedButReportedFailed
    ensures var o := Calling(log, clone, pid, op, attempt, retries, rounds, landed);
            forall k :: k in o.landed ==> k < retries && ToldAs(o.result, rounds(k).push)
    decreases retries - attempt
  {
    hide Prepared, Attempting;
    if attempt < retries {
      var t := Attempting(log, clone, pid, op, attempt, rounds(attempt));
      TookMeans(log, clone, pid, op, attempt, rounds(attempt));
      var landed' := if t.took then landed + [attempt] else landed;
      if t.end.None? {
        LandedMeans(t.log, t.clone, pid, op, attempt + 1, retries, rounds, landed');
      }
    }
  }

  /** With a single attempt, a conflict or a refusal comes before any push. */
  lemma OneAttemptConflicts(log: History, clone: Clone, pid: Pid, op: Op, retries: int, rounds: nat -> Round)
    requires log != [] && clone.head != [] && Prepared(op) && retries <= 1
    requires var end := Calling(log, clone, pid, op, 0, retries, rounds, []).result; end.Conflict? || end.Refused?
    ensures Calling(log, clone, pid, op, 0, retries, rounds, []).landed == []
  {
    hide Prepared, Attempting;
    if retries == 1 {
      var t := Attempting(log, clone, pid, op, 0, rounds(0));
      TookMeans(log, clone, pid, op, 0, rounds(0));
    }
  }
}
