/** Any number of clients racing through `publish_cas` on one shared branch.

A world is the remote log, every client's checkout and in-flight call, and the executions
that returned claims have allowed.  Each action is one atomic step of one client, in the
order `publish_cas` takes them; a client may stop for good before any of them. */
module Cluster {
  import opened Protocol
  import opened Operations
  import opened Runs
  import opened Safety
  import opened GitModel

  type ClientId = nat

  /** The fresh identifier a claiming call draws before it publishes. */
  datatype Token = WorkerToken(runId: RunId) | RequestToken(request: RequestId)

  datatype Point = AtSync | AtCheck | AtPush | AtCleanup

  datatype Call = Call(pid: Pid, op: Op, retries: nat, attempt: nat, point: Point)

  datatype Client = Client(clone: Clone, call: Option<Call>)

  datatype Execution = Execution(pid: Pid, command: int, runId: RunId, token: Token)

  datatype World = World(
    log: History,
    clients: map<ClientId, Client>,
    drawn: set<Token>,
    executions: seq<Execution>)

  datatype Action =
    | Checkout(c: ClientId)
    | Begin(c: ClientId, pid: Pid, op: Op, retries: nat)
    | SyncStep(c: ClientId, fetch: FetchReply)
    | CheckStep(c: ClientId, stamp: nat, writeFails: bool)
    | PushStep(c: ClientId, push: PushReply)
    | CleanupStep(c: ClientId, cleanup: CleanupReply)
    | Crash(c: ClientId)
    | StageFile(pid: Pid, id: int, command: Command, stamp: nat)
    | Unrelated(stamp: nat)

  function TokenOf(op: Op): Token
    requires op.Claims()
  {
    match op
    case Claim(_, runId) => WorkerToken(runId)
    case ManualStart(_, request, _, _, _, _) => RequestToken(request)
    case Withdraw(_, _, request, _, _, _) => RequestToken(request)
  }

  /** A fresh token names one run: the Worker's run id, or the request in a manual one. */
  predicate NamedBy(runId: RunId, t: Token) {
    match t
    case WorkerToken(r) => runId == r && r.WorkerRun?
    case RequestToken(q) => runId.ManualRun? && runId.request == q
  }

  // ---------------------------------------------------------------- actions

  function SetClient(w: World, c: ClientId, client: Client): World {
    w.(clients := w.clients[c := client])
  }

  /** The call raises: nothing more happens in it. */
  function Raise(w: World, c: ClientId, clone: Clone): World {
    SetClient(w, c, Client(clone, None))
  }

  /** The execution a returned claim allows: the Worker runs the command it prepared, the
      manual lane the one its own lease names. */
  function Allowed(t: Tree, pid: Pid, op: Op): Option<Execution> {
    if !op.Claims() || pid !in t then None
    else if op.Claim? then Some(Execution(pid, op.snap.state.latestCommand, op.runId, TokenOf(op)))
    else
      var active := t[pid].state.activeRun;
      if active.Some? && active.value.manualRequestId == Some(op.requestId)
      then Some(Execution(pid, active.value.commandId, active.value.runId, TokenOf(op))) else None
  }

  /** The call returns the record at the client's head. */
  function Return(w: World, c: ClientId, clone: Clone, call: Call): World
    requires clone.head != []
  {
    var w' := SetClient(w, c, Client(clone, None));
    match Allowed(Tip(clone.head), call.pid, call.op)
    case None => w'
    case Some(e) => w'.(executions := w.executions + [e])
  }

  /** A call may begin on any record the checked-out history holds, not only the newest: the
      threads of one process share a clone, which may have moved on since. */
  predicate MayBegin(w: World, c: ClientId, pid: Pid, op: Op, retries: nat) {
    && c in w.clients && w.clients[c].call.None?
    && retries >= 1
    && Prepared(op)
    && (!w.clients[c].clone.dirty ==> EvidenceIn(w.clients[c].clone.head, pid, op))
    && (op.Claims() ==> TokenOf(op) !in w.drawn)
  }

  predicate At(w: World, c: ClientId, point: Point) {
    c in w.clients && w.clients[c].call.Some? && w.clients[c].call.value.point == point
  }

  function Check(w: World, c: ClientId, stamp: nat, writeFails: bool): World
    requires At(w, c, AtCheck)
  {
    var Client(clone, Some(call)) := w.clients[c];
    if clone.head == [] || call.pid !in Tip(clone.head) || !Prepared(call.op) then Raise(w, c, clone) else
    var p := Tip(clone.head)[call.pid];
    if Already(call.op, p) then Return(w, c, clone, call)
    else if !Expected(call.op, p) then Raise(w, c, clone)
    else match Build(call.op, p)
      case None => Raise(w, c, clone)
      case Some(q) =>
        if q == p then Return(w, c, clone, call)
        else if writeFails then Raise(w, c, clone.(dirty := true))
        else
          var commit := Commit(Tip(clone.head)[call.pid := q], Canonical(call.pid, call.op), stamp);
          SetClient(w, c, Client(clone.(head := clone.head + [commit]), Some(call.(point := AtPush))))
  }

  function Synchronize(w: World, c: ClientId, fetch: FetchReply): World
    requires At(w, c, AtSync)
  {
    var Client(clone, Some(call)) := w.clients[c];
    match Sync(clone, w.log, call.attempt > 0, fetch)
    case Refused(clone') => Raise(w, c, clone')
    case Ready(clone') => SetClient(w, c, Client(clone', Some(call.(point := AtCheck))))
  }

  function PushCommit(w: World, c: ClientId, push: PushReply): World
    requires At(w, c, AtPush) && w.clients[c].clone.head != []
  {
    var Client(clone, Some(call)) := w.clients[c];
    var pushed := Push(clone, w.log, push);
    var w' := w.(log := pushed.log);
    if pushed.raised then Raise(w', c, pushed.clone)
    else if pushed.ok then Return(w', c, pushed.clone, call)
    else SetClient(w', c, Client(pushed.clone, Some(call.(point := AtCleanup))))
  }

  function Discard(w: World, c: ClientId, cleanup: CleanupReply): World
    requires At(w, c, AtCleanup)
  {
    var Client(clone, Some(call)) := w.clients[c];
    var clone' := CleanUp(clone, w.log, cleanup);
    if cleanup.fetch == CleanRaised || call.attempt + 1 >= call.retries then Raise(w, c, clone')
    else SetClient(w, c, Client(clone', Some(call.(attempt := call.attempt + 1, point := AtSync))))
  }

  function Start(w: World, c: ClientId, pid: Pid, op: Op, retries: nat): World
    requires MayBegin(w, c, pid, op, retries)
  {
    SetClient(w, c, w.clients[c].(call := Some(Call(pid, op, retries, 0, AtSync))))
    .(drawn := if op.Claims() then w.drawn + {TokenOf(op)} else w.drawn)
  }

  function StageOnRemote(w: World, pid: Pid, id: int, command: Command, stamp: nat): World
    requires w.log != [] && pid in Tip(w.log)
  {
    var p := Tip(w.log)[pid];
    w.(log := w.log + [Commit(Tip(w.log)[pid := p.(commands := p.commands[id := command])],
                              StagedFile(pid, id, command), stamp)])
  }

  /** One action; an action that is not enabled leaves the world as it is. */
  function Step(w: World, a: Action): World {
    match a
    case Checkout(c) =>
      if c in w.clients then w else SetClient(w, c, Client(Clone(w.log, w.log, false), None))
    case Begin(c, pid, op, retries) => if MayBegin(w, c, pid, op, retries) then Start(w, c, pid, op, retries) else w
    case SyncStep(c, fetch) => if At(w, c, AtSync) then Synchronize(w, c, fetch) else w
    case CheckStep(c, stamp, writeFails) => if At(w, c, AtCheck) then Check(w, c, stamp, writeFails) else w
    case PushStep(c, push) =>
      if At(w, c, AtPush) && w.clients[c].clone.head != [] then PushCommit(w, c, push) else w
    case CleanupStep(c, cleanup) => if At(w, c, AtCleanup) then Discard(w, c, cleanup) else w
    case Crash(c) => if c in w.clients then Raise(w, c, w.clients[c].clone) else w
    case StageFile(pid, id, command, stamp) =>
      if w.log != [] && pid in Tip(w.log) && id !in Tip(w.log)[pid].commands
      then StageOnRemote(w, pid, id, command, stamp) else w
    case Unrelated(stamp) =>
      if w.log != [] then w.(log := w.log + [Commit(Tip(w.log), NoProject, stamp)]) else w
  }

  function After(w: World, actions: seq<Action>): World
    decreases |actions|
  {
    if actions == [] then w else Step(After(w, actions[..|actions| - 1]), actions[|actions| - 1])
  }

  ghost predicate Initial(w: World) {
    ValidHistory(w.log) && w.clients == map[] && w.drawn == {} && w.executions == []
  }

  // -------------------------------------------------------------- invariant

  /** Why the client may go on from where its call stands. */
  ghost predicate CallOk(client: Client, log: History)
    requires client.call.Some? && client.clone.head != []
  {
    var Client(clone, Some(call)) := client;
    && Prepared(call.op)
    && call.attempt < call.retries
    && match call.point
       case AtSync =>
         if call.attempt == 0 then !clone.dirty ==> EvidenceIn(clone.head, call.pid, call.op)
         else EvidenceIn(log, call.pid, call.op)
       case AtCheck => NotAhead(clone, log) && EvidenceIn(clone.head, call.pid, call.op)
       case AtPush =>
         var n := |clone.head| - 1;
         && n > 0 && clone.head[..n] <= log
         && Follows(clone.head[..n], clone.head[n])
         && EvidenceIn(clone.head[..n], call.pid, call.op)
         && clone.head[n].change == Canonical(call.pid, call.op)
       case AtCleanup => EvidenceIn(log, call.pid, call.op)
  }

  ghost predicate ClientOk(client: Client, log: History) {
    CloneOk(client.clone, log) && (client.call.Some? ==> CallOk(client, log))
  }

  /** The run an execution belongs to held the command's lease on the branch. */
  ghost predicate LeaseOnRecord(log: History, e: Execution) {
    exists k :: 0 <= k < |log| && LeaseAt(log[k].tree, e)
  }

  predicate LeaseAt(t: Tree, e: Execution) {
    && e.pid in t
    && t[e.pid].state.status == CodexRunning
    && t[e.pid].state.activeRun.Some?
    && t[e.pid].state.activeRun.value.runId == e.runId
    && t[e.pid].state.latestCommand == e.command
    && NamedBy(e.runId, e.token)
  }

  predicate Holds(client: Client, t: Token) {
    client.call.Some? && client.call.value.op.Claims() && TokenOf(client.call.value.op) == t
  }

  ghost predicate TokensOk(w: World) {
    && (forall c, t :: c in w.clients && Holds(w.clients[c], t) ==> t in w.drawn)
    && (forall c, d, t :: c in w.clients && d in w.clients && c != d && Holds(w.clients[c], t) ==> !Holds(w.clients[d], t))
    && (forall i :: 0 <= i < |w.executions| ==> w.executions[i].token in w.drawn)
    && (forall i, c :: 0 <= i < |w.executions| && c in w.clients ==> !Holds(w.clients[c], w.executions[i].token))
    && (forall i, j :: 0 <= i < j < |w.executions| ==> w.executions[i].token != w.executions[j].token)
  }

  ghost predicate WorldInv(w: World) {
    && ValidHistory(w.log)
    && (forall c :: c in w.clients ==> ClientOk(w.clients[c], w.log))
    && (forall i :: 0 <= i < |w.executions| ==> LeaseOnRecord(w.log, w.executions[i]))
    && TokensOk(w)
  }

  // ------------------------------------------------------------ preservation

  lemma ClientOkMonotone(client: Client, log: History, log': History)
    requires ClientOk(client, log) && log <= log'
    ensures ClientOk(client, log')
  {
    if client.call.Some? {
      var call := client.call.value;
      if (call.point == AtSync && call.attempt > 0) || call.point == AtCleanup {
        EvidenceMonotone(log, log', call.pid, call.op);
      }
    }
  }

  /** A log that only grew keeps everything that was said about it. */
  lemma LogGrows(w: World, log': History)
    requires WorldInv(w) && ValidHistory(log') && w.log <= log'
    ensures WorldInv(w.(log := log'))
  {
    forall c | c in w.clients ensures ClientOk(w.clients[c], log') {
      ClientOkMonotone(w.clients[c], w.log, log');
    }
    forall i | 0 <= i < |w.executions| ensures LeaseOnRecord(log', w.executions[i]) {
      var k :| 0 <= k < |w.log| && LeaseAt(w.log[k].tree, w.executions[i]);
      assert log'[k] == w.log[k];
    }
  }

  /** Replacing one client's state, keeping or dropping its token. */
  lemma ClientMoves(w: World, c: ClientId, client: Client)
    requires WorldInv(w) && ClientOk(client, w.log)
    requires client.call.Some? && client.call.value.op.Claims() ==>
             c in w.clients && w.clients[c].call.Some? && client.call.value.op == w.clients[c].call.value.op
    ensures WorldInv(SetClient(w, c, client))
  {
    assert forall t :: Holds(client, t) ==> c in w.clients && Holds(w.clients[c], t);
  }

  /** Where a claiming call returns, its lease is on the record it returns. */
  lemma AllowedHoldsLease(h: History, pid: Pid, op: Op)
    requires ValidHistory(h) && pid in Tip(h) && Prepared(op) && Allowed(Tip(h), pid, op).Some?
    requires Already(op, Tip(h)[pid]) || (h[|h| - 1].change == Canonical(pid, op) && |h| > 1)
    ensures LeaseAt(Tip(h), Allowed(Tip(h), pid, op).value)
  {
    TipInv(h, pid);
    if !Already(op, Tip(h)[pid]) {
      assert FollowsAt(h, |h| - 1);
    }
  }

  lemma ReturnKeepsInv(w: World, c: ClientId, clone: Clone, call: Call)
    requires WorldInv(w) && c in w.clients && w.clients[c].call.Some? && w.clients[c].call.value.op == call.op
    requires CloneOk(clone, w.log) && NotAhead(clone, w.log)
    requires Prepared(call.op) && call.pid in Tip(clone.head)
    requires Already(call.op, Tip(clone.head)[call.pid])
             || (clone.head[|clone.head| - 1].change == Canonical(call.pid, call.op) && |clone.head| > 1)
    ensures WorldInv(Return(w, c, clone, call))
  {
    hide Prepared, Already, Lands, Inv, Allowed, LeaseAt;
    ClientMoves(w, c, Client(clone, None));
    var allowed := Allowed(Tip(clone.head), call.pid, call.op);
    if allowed.Some? {
      var k := |clone.head| - 1;
      assert clone.head == w.log[..k + 1];
      PrefixValid(w.log, k + 1);
      AllowedHoldsLease(clone.head, call.pid, call.op);
      AllowedToken(Tip(clone.head), call.pid, call.op);
      assert Holds(w.clients[c], allowed.value.token);
      ExecutionRecorded(SetClient(w, c, Client(clone, None)), k, allowed.value);
    }
  }

  lemma AllowedToken(t: Tree, pid: Pid, op: Op)
    requires Allowed(t, pid, op).Some?
    ensures op.Claims() && Allowed(t, pid, op).value.token == TokenOf(op)
  {
  }

  lemma ExecutionRecorded(w: World, k: nat, e: Execution)
    requires WorldInv(w) && k < |w.log| && LeaseAt(w.log[k].tree, e)
    requires e.token in w.drawn
    requires forall d :: d in w.clients ==> !Holds(w.clients[d], e.token)
    requires forall i :: 0 <= i < |w.executions| ==> w.executions[i].token != e.token
    ensures WorldInv(w.(executions := w.executions + [e]))
  {
    hide ValidHistory, ClientOk, Holds, LeaseAt;
  }

  lemma PrefixValid(h: History, n: nat)
    requires ValidHistory(h) && 0 < n <= |h|
    ensures ValidHistory(h[..n])
  {
    forall i | 0 < i < n ensures FollowsAt(h[..n], i) {
      assert FollowsAt(h, i);
      assert h[..n][..i] == h[..i];
    }
  }

  lemma SyncKeepsInv(w: World, c: ClientId, fetch: FetchReply)
    requires WorldInv(w) && At(w, c, AtSync)
    ensures WorldInv(Synchronize(w, c, fetch))
  {
    var Client(clone, Some(call)) := w.clients[c];
    match Sync(clone, w.log, call.attempt > 0, fetch)
    case Refused(clone') => ClientMoves(w, c, Client(clone', None));
    case Ready(clone') =>
      if call.attempt == 0 && call.op.ReadsSnapshot() {
        var k := |clone.head| - 1;
        assert w.log[k] == clone.head[k];
      }
      ClientMoves(w, c, Client(clone', Some(call.(point := AtCheck))));
  }

  lemma CheckKeepsInv(w: World, c: ClientId, stamp: nat, writeFails: bool)
    requires WorldInv(w) && At(w, c, AtCheck)
    ensures WorldInv(Check(w, c, stamp, writeFails))
  {
    hide Prepared, Already, Expected, Build, Inv, TokensOk;
    var Client(clone, Some(call)) := w.clients[c];
    ClientMoves(w, c, Client(clone, None));
    ClientMoves(w, c, Client(clone.(dirty := true), None));
    if call.pid in Tip(clone.head) {
      var p := Tip(clone.head)[call.pid];
      PrefixValid(w.log, |clone.head|);
      assert w.log[..|clone.head|] == clone.head;
      TipInv(clone.head, call.pid);
      if Already(call.op, p) {
        ReturnKeepsInv(w, c, clone, call);
      } else if Expected(call.op, p) && Build(call.op, p).Some? {
        var q := Build(call.op, p).value;
        LandsKeepsInv(call.op, p, q);
        if !writeFails {
          var commit := Commit(Tip(clone.head)[call.pid := q], Canonical(call.pid, call.op), stamp);
          var head := clone.head + [commit];
          assert head[..|clone.head|] == clone.head;
          ClientMoves(w, c, Client(clone.(head := head), Some(call.(point := AtPush))));
        }
      }
    }
  }

  /** A push the remote takes appends exactly the one commit, onto exactly its parent. */
  lemma PushIsFastForward(w: World, c: ClientId, push: PushReply)
    requires WorldInv(w) && At(w, c, AtPush)
    ensures var Client(clone, _) := w.clients[c]; var n := |clone.head| - 1;
            var log' := Push(clone, w.log, push).log;
            ValidHistory(log') && (log' == w.log || (w.log == clone.head[..n] && log' == clone.head))
  {
    hide Lands, Prepared, Inv, TokensOk;
    var Client(clone, Some(call)) := w.clients[c];
    var n := |clone.head| - 1;
    assert clone.head == clone.head[..n] + [clone.head[n]];
    if w.log <= clone.head && |w.log| == n {
      assert w.log == clone.head[..n];
      ValidExtension(w.log, clone.head[n]);
    } else if w.log <= clone.head {
      assert w.log == clone.head;
    }
  }

  lemma PushKeepsInv(w: World, c: ClientId, push: PushReply)
    requires WorldInv(w) && At(w, c, AtPush)
    ensures WorldInv(PushCommit(w, c, push))
  {
    hide Prepared, Already, Lands, Inv, TokensOk;
    var Client(clone, Some(call)) := w.clients[c];
    var pushed := Push(clone, w.log, push);
    PushIsFastForward(w, c, push);
    LogGrows(w, pushed.log);
    var w' := w.(log := pushed.log);
    ClientOkMonotone(w.clients[c], w.log, pushed.log);
    if pushed.raised {
      ClientMoves(w', c, Client(pushed.clone, None));
    } else if pushed.ok {
      ReturnKeepsInv(w', c, pushed.clone, call);
    } else {
      EvidenceMonotone(clone.head[..|clone.head| - 1], pushed.log, call.pid, call.op);
      ClientMoves(w', c, Client(pushed.clone, Some(call.(point := AtCleanup))));
    }
  }

  lemma BeginKeepsInv(w: World, c: ClientId, pid: Pid, op: Op, retries: nat)
    requires WorldInv(w) && MayBegin(w, c, pid, op, retries)
    ensures WorldInv(Start(w, c, pid, op, retries))
  {
    BeginDrawsFresh(w, c, pid, op, retries);
    hide Prepared, ValidHistory, TokensOk, LeaseAt;
  }

  lemma BeginDrawsFresh(w: World, c: ClientId, pid: Pid, op: Op, retries: nat)
    requires TokensOk(w) && MayBegin(w, c, pid, op, retries)
    ensures TokensOk(Start(w, c, pid, op, retries))
  {
    hide Prepared, TokenOf;
    var w' := Start(w, c, pid, op, retries);
    assert forall d :: d in w.clients && d != c ==> w'.clients[d] == w.clients[d];
    assert forall t :: Holds(w'.clients[c], t) ==> op.Claims() && t == TokenOf(op);
  }

  lemma AppendKeepsInv(w: World, commit: Commit)
    requires WorldInv(w) && Follows(w.log, commit)
    ensures WorldInv(w.(log := w.log + [commit]))
  {
    ValidExtension(w.log, commit);
    LogGrows(w, w.log + [commit]);
  }

  lemma DiscardKeepsInv(w: World, c: ClientId, cleanup: CleanupReply)
    requires WorldInv(w) && At(w, c, AtCleanup)
    ensures WorldInv(Discard(w, c, cleanup))
  {
    hide Prepared, Inv, Lands, TokensOk;
    var Client(clone, Some(call)) := w.clients[c];
    var clone' := CleanUp(clone, w.log, cleanup);
    ClientMoves(w, c, Client(clone', None));
    if call.attempt + 1 < call.retries {
      ClientMoves(w, c, Client(clone', Some(call.(attempt := call.attempt + 1, point := AtSync))));
    }
  }

  lemma StageKeepsInv(w: World, pid: Pid, id: int, command: Command, stamp: nat)
    requires WorldInv(w) && pid in Tip(w.log) && id !in Tip(w.log)[pid].commands
    ensures WorldInv(StageOnRemote(w, pid, id, command, stamp))
  {
    var p := Tip(w.log)[pid];
    AppendKeepsInv(w, Commit(Tip(w.log)[pid := p.(commands := p.commands[id := command])],
                             StagedFile(pid, id, command), stamp));
  }

  lemma StepKeepsInv(w: World, a: Action)
    requires WorldInv(w)
    ensures WorldInv(Step(w, a))
  {
    match a
    case Checkout(c) =>
      if c !in w.clients { ClientMoves(w, c, Client(Clone(w.log, w.log, false), None)); }
    case Begin(c, pid, op, retries) =>
      if MayBegin(w, c, pid, op, retries) { BeginKeepsInv(w, c, pid, op, retries); }
    case SyncStep(c, fetch) =>
      if At(w, c, AtSync) { SyncKeepsInv(w, c, fetch); }
    case CheckStep(c, stamp, writeFails) =>
      if At(w, c, AtCheck) { CheckKeepsInv(w, c, stamp, writeFails); }
    case PushStep(c, push) =>
      if At(w, c, AtPush) { PushKeepsInv(w, c, push); }
    case CleanupStep(c, cleanup) =>
      if At(w, c, AtCleanup) { DiscardKeepsInv(w, c, cleanup); }
    case Crash(c) =>
      if c in w.clients { ClientMoves(w, c, Client(w.clients[c].clone, None)); }
    case StageFile(pid, id, command, stamp) =>
      if pid in Tip(w.log) && id !in Tip(w.log)[pid].commands { StageKeepsInv(w, pid, id, command, stamp); }
    case Unrelated(stamp) => AppendKeepsInv(w, Commit(Tip(w.log), NoProject, stamp));
  }

  lemma {:induction false} ReachableWorlds(w: World, actions: seq<Action>)
    requires Initial(w)
    ensures WorldInv(After(w, actions))
    decreases |actions|
  {
    if actions != [] {
      ReachableWorlds(w, actions[..|actions| - 1]);
      StepKeepsInv(After(w, actions[..|actions| - 1]), actions[|actions| - 1]);
    }
  }

  // ------------------------------------------------------------- guarantees

  lemma LeasesAgree(h: History, e: Execution, f: Execution)
    requires ValidHistory(h) && LeaseOnRecord(h, e) && LeaseOnRecord(h, f)
    requires e.pid == f.pid && e.command == f.command
    ensures e.token == f.token
  {
    var k :| 0 <= k < |h| && LeaseAt(h[k].tree, e);
    var l :| 0 <= l < |h| && LeaseAt(h[l].tree, f);
    SameProjects(h, k);
    ProjectRuns(h, e.pid);
    var r, m := Records(h, e.pid), Moves(h, e.pid);
    assert r[k] == h[k].tree[e.pid] && r[l] == h[l].tree[e.pid];
    OneLeasePerCommand(r, m, if k <= l then k else l, if k <= l then l else k);
    SameRunSameToken(e.runId, e.token, f.token);
  }

  /** Never rerun a command: in every world that any number of clients can reach, through
      any interleaving, lost reply and crash, no command of a project has been executed
      twice. */
  lemma ExecutedAtMostOnce(w: World, actions: seq<Action>, i: nat, j: nat)
    requires Initial(w)
    requires i < j < |After(w, actions).executions|
    ensures var e, f := After(w, actions).executions[i], After(w, actions).executions[j];
            !(e.pid == f.pid && e.command == f.command)
  {
    ReachableWorlds(w, actions);
    hide Step;
    InvExecutesOnce(After(w, actions), i, j);
  }

  lemma InvExecutesOnce(v: World, i: nat, j: nat)
    requires WorldInv(v) && i < j < |v.executions|
    ensures !(v.executions[i].pid == v.executions[j].pid && v.executions[i].command == v.executions[j].command)
  {
    if v.executions[i].pid == v.executions[j].pid && v.executions[i].command == v.executions[j].command {
      LeasesAgree(v.log, v.executions[i], v.executions[j]);
    }
  }

  lemma SameRunSameToken(runId: RunId, t: Token, u: Token)
    requires NamedBy(runId, t) && NamedBy(runId, u)
    ensures t == u
  {
  }

  /** Serializability: in every reachable world each commit on the branch was built from
      exactly its parent's record of one project, with `expected` true and `already_applied`
      false there, and leaves every other project's record as it was. */
  lemma PublicationIsSerializable(w: World, actions: seq<Action>, i: nat)
    requires Initial(w) && |w.log| <= i < |After(w, actions).log|
    ensures var h := After(w, actions).log;
            match h[i].change
            case NoProject => h[i].tree == h[i - 1].tree
            case StagedFile(pid, id, command) =>
              && pid in h[i - 1].tree && pid in h[i].tree
              && h[i].tree == h[i - 1].tree[pid := h[i].tree[pid]]
              && h[i].tree[pid].state == h[i - 1].tree[pid].state
            case Canonical(pid, op) =>
              && pid in h[i - 1].tree && pid in h[i].tree
              && Lands(op, h[i - 1].tree[pid], h[i].tree[pid])
              && h[i].tree == h[i - 1].tree[pid := h[i].tree[pid]]
              && (op.ReadsSnapshot() ==> op.snap.state == h[i - 1].tree[pid].state)
  {
    hide Step, Lands, Inv, ClientOk, TokensOk;
    ReachableWorlds(w, actions);
    var h := After(w, actions).log;
    assert FollowsAt(h, i);
    assert h[..i][i - 1] == h[i - 1];
    if h[i].change.Canonical? && h[i].change.op.ReadsSnapshot() {
      SameProjects(h, i);
      SameProjects(h, i - 1);
      var pid := h[i].change.pid;
      ProjectRuns(h, pid);
      EvidenceIsFresh(Records(h, pid), Moves(h, pid), i - 1);
    }
  }

  /** An idle client, or one that has only just called, whose checkout holds a commit the
      branch does not. */
  predicate Unresolved(w: World, c: ClientId) {
    && c in w.clients
    && !NotAhead(w.clients[c].clone, w.log)
    && (w.clients[c].call.Some? ==>
          w.clients[c].call.value.point == AtSync && w.clients[c].call.value.attempt == 0)
  }

  function Actor(a: Action): Option<ClientId> {
    match a
    case Checkout(c) => Some(c)
    case Begin(c, _, _, _) => Some(c)
    case SyncStep(c, _) => Some(c)
    case CheckStep(c, _, _) => Some(c)
    case PushStep(c, _) => Some(c)
    case CleanupStep(c, _) => Some(c)
    case Crash(c) => Some(c)
    case StageFile(_, _, _, _) => None
    case Unrelated(_) => None
  }

  /** Nobody else touches a client's checkout or call. */
  lemma OthersLeaveAlone(w: World, a: Action, c: ClientId)
    requires c in w.clients && Actor(a) != Some(c)
    ensures c in Step(w, a).clients && Step(w, a).clients[c] == w.clients[c]
  {
    hide Prepared, Already, Expected, Build, Allowed;
  }

  /** Such a client publishes nothing, keeps the commit, and stays so until that commit is
      itself on the branch. */
  lemma UnresolvedPublishesNothing(w: World, a: Action, c: ClientId)
    requires WorldInv(w) && Unresolved(w, c)
    ensures var w' := Step(w, a);
            && c in w'.clients
            && w'.clients[c].clone.head == w.clients[c].clone.head
            && (Actor(a) == Some(c) ==> w'.log == w.log && w'.executions == w.executions)
            && (Unresolved(w', c) || NotAhead(w'.clients[c].clone, w'.log))
  {
    if Actor(a) != Some(c) {
      OthersLeaveAlone(w, a, c);
      hide Step;
    } else {
      hide Prepared, Already, Expected, Build, ValidHistory, TokensOk, Allowed, EvidenceIn, Follows;
    }
  }

  lemma LogOnlyGrows(w: World, a: Action)
    requires WorldInv(w)
    ensures w.log <= Step(w, a).log
  {
    hide Prepared, Already, Expected, Build, Allowed, ClientOk, TokensOk, ValidHistory;
  }

  /** Over whole runs: until its commit is on the branch, the client stays unresolved... */
  lemma {:induction false} UnresolvedUntilPublished(w: World, actions: seq<Action>, c: ClientId)
    requires WorldInv(w) && Unresolved(w, c)
    ensures var v := After(w, actions);
            && WorldInv(v)
            && (w.clients[c].clone.head <= v.log ||
                (Unresolved(v, c) && v.clients[c].clone.head == w.clients[c].clone.head))
    decreases |actions|
  {
    if actions != [] {
      var before, a := After(w, actions[..|actions| - 1]), actions[|actions| - 1];
      UnresolvedUntilPublished(w, actions[..|actions| - 1], c);
      StepKeepsInv(before, a);
      LogOnlyGrows(before, a);
      hide Step, WorldInv;
      if !(w.clients[c].clone.head <= before.log) {
        UnresolvedPublishesNothing(before, a, c);
      }
    }
  }

  /** ...and none of its own actions adds a commit or an execution. */
  lemma SilentWhileUnresolved(w: World, actions: seq<Action>, c: ClientId)
    requires WorldInv(w) && Unresolved(w, c)
    requires actions != [] && Actor(actions[|actions| - 1]) == Some(c)
    ensures var before, after := After(w, actions[..|actions| - 1]), After(w, actions);
            w.clients[c].clone.head <= before.log ||
            (after.log == before.log && after.executions == before.executions)
  {
    UnresolvedUntilPublished(w, actions[..|actions| - 1], c);
    var before := After(w, actions[..|actions| - 1]);
    if !(w.clients[c].clone.head <= before.log) {
      UnresolvedPublishesNothing(before, actions[|actions| - 1], c);
      hide Step;
    }
  }
}
