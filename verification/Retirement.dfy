/** `retire_tracked_paths`: consumed requests are moved out of the inbox, by batches, into
history files that keep their exact bytes. */
module Retirement {
  import opened Protocol
  import opened GitModel

  type Bytes = seq<nat>

  /** A name in the inbox: `request-<id>.json` with its prefix in any case, or anything else. */
  datatype FileName = RequestFile(id: nat, casing: nat) | OddFile(tag: nat)

  datatype Outcome = Published | AlreadyApplied | InvalidRequest | Stale | ActiveProject | CasRace

  datatype Path =
    | InInbox(name: FileName)
    | ById(outcome: Outcome, id: nat)
    | ByContent(outcome: Outcome, content: Bytes, name: FileName)
    | Unrelated(tag: nat)

  type Files = map<Path, Bytes>

  datatype Item = Item(source: Path, destination: Path, blob: Bytes)

  // ----------------------------------------------------------------- one item

  datatype Verdict = Move | Unlink | Already | Skip

  /** `read_blob` with a size limit: None where it raises. */
  function ReadBlob(files: Files, path: Path, maxBytes: nat): Option<Bytes> {
    if path in files && |files[path]| <= maxBytes then Some(files[path]) else None
  }

  function Inspect(files: Files, r: Item): Verdict {
    match ReadBlob(files, r.source, |r.blob|)
    case None => if ReadBlob(files, r.destination, |r.blob|) == Some(r.blob) then Already else Skip
    case Some(blob) =>
      if blob != r.blob then Skip
      else if r.destination in files then
        if ReadBlob(files, r.destination, |r.blob|) == Some(r.blob) then Unlink else Skip
      else Move
  }

  predicate IsReady(files: Files, r: Item) {
    Inspect(files, r).Move? || Inspect(files, r).Unlink?
  }

  predicate Reported(files: Files, r: Item) {
    IsReady(files, r) || Inspect(files, r).Already?
  }

  /** The promise: the exact bytes are at the destination, and no longer at the source. */
  predicate Moved(files: Files, r: Item) {
    && r.destination in files && files[r.destination] == r.blob
    && !(r.source in files && files[r.source] == r.blob)
  }

  predicate Holds(files: Files, p: Path, blob: Bytes) {
    p in files && files[p] == blob
  }

  /** What is reported of one item: its exact bytes are still at the source and nothing else is
      at the destination, or no file of at most their size is at the source and the destination
      has them. */
  lemma ReportedIff(files: Files, r: Item)
    ensures IsReady(files, r) <==>
      Holds(files, r.source, r.blob) && (r.destination !in files || Holds(files, r.destination, r.blob))
    ensures Inspect(files, r).Move? <==> Holds(files, r.source, r.blob) && r.destination !in files
    ensures Inspect(files, r).Already? <==>
      && !(r.source in files && |files[r.source]| <= |r.blob|)
      && Holds(files, r.destination, r.blob)
  {
    var a := ReadBlob(files, r.source, |r.blob|);
    var b := ReadBlob(files, r.destination, |r.blob|);
    assert a.Some? ==> a.value == files[r.source];
    assert b.Some? ==> b.value == files[r.destination];
  }

  // ------------------------------------------------------------------ a batch

  /** What the function checks of a batch: only the sources. */
  predicate ValidBatch(batch: seq<Item>) {
    && |batch| <= 128
    && (forall i :: 0 <= i < |batch| ==> batch[i].source != batch[i].destination)
    && (forall i, j :: 0 <= i < j < |batch| ==> batch[i].source != batch[j].source)
  }

  predicate ReadySource(files: Files, batch: seq<Item>, p: Path) {
    exists i :: 0 <= i < |batch| && IsReady(files, batch[i]) && batch[i].source == p
  }

  predicate AlreadySource(files: Files, batch: seq<Item>, p: Path) {
    exists i :: 0 <= i < |batch| && Inspect(files, batch[i]).Already? && batch[i].source == p
  }

  predicate MovesTo(files: Files, batch: seq<Item>, p: Path, blob: Bytes) {
    exists i :: 0 <= i < |batch| && Inspect(files, batch[i]).Move? && batch[i].destination == p && batch[i].blob == blob
  }

  /** What applying a batch comes to, path by path. */
  ghost predicate Applied(files: Files, batch: seq<Item>, out: Files) {
    && (forall p :: ReadySource(files, batch, p) ==> p !in out)
    && (forall p, b :: MovesTo(files, batch, p, b) ==> p in out && MovesTo(files, batch, p, out[p]))
    && (forall p :: p in out ==> (p in files && out[p] == files[p]) || MovesTo(files, batch, p, out[p]))
    && (forall p :: p in files && p !in out ==> ReadySource(files, batch, p))
  }

  lemma ReadyIsPresent(files: Files, batch: seq<Item>, p: Path)
    ensures ReadySource(files, batch, p) ==> p in files
    ensures forall b :: MovesTo(files, batch, p, b) ==> p !in files
  {
  }

  lemma OneMore(files: Files, batch: seq<Item>, r: Item, p: Path)
    ensures ReadySource(files, batch + [r], p) <==> ReadySource(files, batch, p) || (IsReady(files, r) && r.source == p)
    ensures forall b :: MovesTo(files, batch + [r], p, b) <==>
      MovesTo(files, batch, p, b) || (Inspect(files, r).Move? && r.destination == p && r.blob == b)
  {
    hide Inspect;
    var all := batch + [r];
    assert all[|batch|] == r;
    assert forall i :: 0 <= i < |batch| ==> all[i] == batch[i];
    forall b ensures MovesTo(files, all, p, b) <==>
      MovesTo(files, batch, p, b) || (Inspect(files, r).Move? && r.destination == p && r.blob == b)
    {
      if MovesTo(files, batch, p, b) {
        var i :| 0 <= i < |batch| && Inspect(files, batch[i]).Move? && batch[i].destination == p && batch[i].blob == b;
        assert all[i] == batch[i];
      }
    }
    if ReadySource(files, batch, p) {
      var i :| 0 <= i < |batch| && IsReady(files, batch[i]) && batch[i].source == p;
      assert all[i] == batch[i];
    }
  }

  function ApplyItem(files: Files, r: Item, before: Files): Files {
    match Inspect(files, r)
    case Move => before[r.destination := r.blob] - {r.source}
    case Unlink => before - {r.source}
    case _ => before
  }

  /** The moves, one after the other, all decided on the files as they were. */
  function Apply(files: Files, batch: seq<Item>): Files {
    if batch == [] then files
    else ApplyItem(files, batch[|batch| - 1], Apply(files, batch[..|batch| - 1]))
  }

  lemma ApplyOne(files: Files, batch: seq<Item>, r: Item, before: Files)
    requires r.source != r.destination && Applied(files, batch, before)
    ensures Applied(files, batch + [r], ApplyItem(files, r, before))
  {
    var out := ApplyItem(files, r, before);
    hide ReadySource, MovesTo;
    forall p ensures ReadySource(files, batch + [r], p) ==> p !in out {
      OneMore(files, batch, r, p);
      ReadyIsPresent(files, batch, p);
    }
    forall p, b ensures MovesTo(files, batch + [r], p, b) ==> p in out && MovesTo(files, batch + [r], p, out[p]) {
      OneMore(files, batch, r, p);
      ReadyIsPresent(files, batch, p);
    }
    forall p ensures p in out ==> (p in files && out[p] == files[p]) || MovesTo(files, batch + [r], p, out[p]) {
      OneMore(files, batch, r, p);
    }
    forall p ensures p in files && p !in out ==> ReadySource(files, batch + [r], p) {
      OneMore(files, batch, r, p);
    }
  }

  lemma {:induction false} ApplyIsApplied(files: Files, batch: seq<Item>)
    requires ValidBatch(batch)
    ensures Applied(files, batch, Apply(files, batch))
    decreases |batch|
  {
    hide ReadySource, MovesTo, ApplyItem;
    if batch == [] {
      NothingApplied(files);
    } else {
      var n := |batch| - 1;
      ApplyIsApplied(files, batch[..n]);
      ApplyOne(files, batch[..n], batch[n], Apply(files, batch[..n]));
      assert batch[..n] + [batch[n]] == batch;
    }
  }

  lemma NothingApplied(files: Files)
    ensures Applied(files, [], files)
  {
  }

  // ---------------------------------------------------------------- the promise

  /** No destination stands for two contents, and none is the source of the same content. */
  predicate SafeBatch(batch: seq<Item>) {
    && (forall i, j :: 0 <= i < j < |batch| && batch[i].destination == batch[j].destination ==> batch[i].blob == batch[j].blob)
    && (forall i, j :: 0 <= i < |batch| && 0 <= j < |batch| && batch[i].destination == batch[j].source
                       ==> batch[i].blob != batch[j].blob)
  }

  /** A ready source holds its item's bytes; a safe batch writes each destination one way. */
  lemma SafeWrites(files: Files, batch: seq<Item>, r: Item)
    requires SafeBatch(batch) && r in batch
    ensures forall b :: MovesTo(files, batch, r.destination, b) ==> b == r.blob
    ensures ReadySource(files, batch, r.destination) ==> files[r.destination] != r.blob
    ensures forall b :: MovesTo(files, batch, r.source, b) ==> b != r.blob
  {
    var i :| 0 <= i < |batch| && batch[i] == r;
    hide Inspect;
    if ReadySource(files, batch, r.destination) {
      var j :| 0 <= j < |batch| && IsReady(files, batch[j]) && batch[j].source == r.destination;
      ReadyHolds(files, batch[j]);
    }
  }

  lemma ReadyHolds(files: Files, r: Item)
    ensures IsReady(files, r) ==> r.source in files && files[r.source] == r.blob
    ensures Inspect(files, r).Move? ==> r.destination !in files
    ensures Inspect(files, r).Unlink? || Inspect(files, r).Already? ==> r.destination in files && files[r.destination] == r.blob
    ensures Inspect(files, r).Already? ==> !(r.source in files && files[r.source] == r.blob)
  {
  }

  lemma IsReadySource(files: Files, batch: seq<Item>, r: Item)
    requires r in batch
    ensures IsReady(files, r) ==> ReadySource(files, batch, r.source)
    ensures Inspect(files, r).Move? ==> MovesTo(files, batch, r.destination, r.blob)
  {
    var i :| 0 <= i < |batch| && batch[i] == r;
  }

  /** What a safe batch reports has moved... */
  lemma SafeBatchMoves(files: Files, batch: seq<Item>, r: Item)
    requires ValidBatch(batch) && SafeBatch(batch) && r in batch && Reported(files, r)
    ensures Moved(Apply(files, batch), r)
  {
    ApplyIsApplied(files, batch);
    SafeWrites(files, batch, r);
    ReadyHolds(files, r);
    IsReadySource(files, batch, r);
    hide Inspect, ReadySource, MovesTo, SafeBatch, Apply;
  }

  /** ...and what has moved stays moved through any later batch with the same item. */
  lemma MovedStays(files: Files, batch: seq<Item>, r: Item)
    requires ValidBatch(batch) && SafeBatch(batch) && r in batch && Moved(files, r)
    ensures Moved(Apply(files, batch), r)
  {
    ApplyIsApplied(files, batch);
    SafeWrites(files, batch, r);
    ReadyIsPresent(files, batch, r.destination);
    hide Inspect, ReadySource, MovesTo, SafeBatch, Apply;
  }

  /** Everything else in the repository is as it was. */
  lemma OthersUntouched(files: Files, batch: seq<Item>, p: Path)
    requires ValidBatch(batch) && !ReadySource(files, batch, p) && forall b :: !MovesTo(files, batch, p, b)
    ensures p in files <==> p in Apply(files, batch)
    ensures p in files ==> Apply(files, batch)[p] == files[p]
  {
    ApplyIsApplied(files, batch);
  }

  /** A history record is never overwritten: a file that is no request of the batch keeps its bytes. */
  lemma HistoryKept(files: Files, batch: seq<Item>, p: Path)
    requires ValidBatch(batch) && p in files && forall i :: 0 <= i < |batch| ==> batch[i].source != p
    ensures p in Apply(files, batch) && Apply(files, batch)[p] == files[p]
  {
    ApplyIsApplied(files, batch);
    ReadyIsPresent(files, batch, p);
  }

  lemma TwoContents(batch: seq<Item>, i: nat, j: nat) returns (files: Files, r: Item)
    requires ValidBatch(batch) && i < j < |batch|
    requires batch[i].destination == batch[j].destination && batch[i].blob != batch[j].blob
    ensures r in batch && Reported(files, r) && !Moved(Apply(files, batch), r)
  {
    files := map[batch[i].source := batch[i].blob, batch[j].source := batch[j].blob];
    var d, out := batch[i].destination, Apply(files, batch);
    r := if d in out && out[d] == batch[i].blob then batch[j] else batch[i];
    assert Inspect(files, batch[i]).Move? && Inspect(files, batch[j]).Move?;
    hide Apply, Inspect;
  }

  lemma SourceAndDestination(batch: seq<Item>, i: nat, j: nat) returns (files: Files, r: Item)
    requires ValidBatch(batch) && i < |batch| && j < |batch|
    requires batch[i].destination == batch[j].source && batch[i].blob == batch[j].blob
    ensures r in batch && Reported(files, r) && !Moved(Apply(files, batch), r)
  {
    files := map[batch[i].source := batch[i].blob, batch[j].source := batch[j].blob];
    r := batch[i];
    ApplyIsApplied(files, batch);
    IsReadySource(files, batch, batch[j]);
    assert IsReady(files, batch[j]);
    assert Reported(files, batch[i]);
    hide Apply, ReadySource, MovesTo, Inspect;
  }

  /** An unsafe batch breaks the promise on some repository, so the condition is exact. */
  lemma UnsafeBatchLoses(batch: seq<Item>) returns (files: Files, r: Item)
    requires ValidBatch(batch) && !SafeBatch(batch)
    ensures r in batch && Reported(files, r) && !Moved(Apply(files, batch), r)
  {
    hide Apply, Inspect;
    if i, j :| 0 <= i < j < |batch| && batch[i].destination == batch[j].destination && batch[i].blob != batch[j].blob {
      files, r := TwoContents(batch, i, j);
    } else {
      var i, j :| 0 <= i < |batch| && 0 <= j < |batch| && batch[i].destination == batch[j].source
                  && batch[i].blob == batch[j].blob;
      files, r := SourceAndDestination(batch, i, j);
    }
  }

  /** The promise holds on every repository exactly for the safe batches. */
  lemma SafeIff(batch: seq<Item>)
    requires ValidBatch(batch)
    ensures SafeBatch(batch) <==> forall files: Files, r :: r in batch && Reported(files, r) ==> Moved(Apply(files, batch), r)
  {
    if SafeBatch(batch) {
      forall files: Files, r | r in batch && Reported(files, r) ensures Moved(Apply(files, batch), r) {
        SafeBatchMoves(files, batch, r);
      }
    } else {
      var files, r := UnsafeBatchLoses(batch);
    }
  }

  // --------------------------------------------------- where batches come from

  /** One request that a poll is done with. */
  datatype Consumed = Consumed(name: FileName, outcome: Outcome, raw: Bytes)

  /** `_retirement_for`: the history name is made of the request id where there is one. */
  function RetirementFor(c: Consumed): Item {
    Item(InInbox(c.name), if c.name.RequestFile? then ById(c.outcome, c.name.id) else ByContent(c.outcome, c.raw, c.name), c.raw)
  }

  function BatchOf(cs: seq<Consumed>): (b: seq<Item>)
    ensures |b| == |cs| && forall i :: 0 <= i < |b| ==> b[i] == RetirementFor(cs[i])
  {
    seq(|cs|, i requires 0 <= i < |cs| => RetirementFor(cs[i]))
  }

  /** Two request files of one id, retired under one outcome: their names differ in case only. */
  predicate OneRecord(a: Consumed, b: Consumed) {
    a.name.RequestFile? && b.name.RequestFile? && a.name.id == b.name.id && a.outcome == b.outcome
  }

  /** A poll's batch is always accepted.  It is safe unless two files whose names differ only
      in case were retired under one outcome with different bytes. */
  lemma PollBatch(cs: seq<Consumed>)
    requires |cs| <= 128 && forall i, j :: 0 <= i < j < |cs| ==> cs[i].name != cs[j].name
    ensures ValidBatch(BatchOf(cs))
    ensures SafeBatch(BatchOf(cs)) <==>
      forall i, j :: 0 <= i < j < |cs| && OneRecord(cs[i], cs[j]) ==> cs[i].raw == cs[j].raw
  {
    var b := BatchOf(cs);
    if SafeBatch(b) {
      forall i, j | 0 <= i < j < |cs| && OneRecord(cs[i], cs[j]) ensures cs[i].raw == cs[j].raw {
        assert b[i].destination == b[j].destination;
      }
    }
  }

  // ------------------------------------------------------------- publication

  /** Another client's commit, as what it does to the tree it is made on. */
  type Edit = Files -> Files

  /** One attempt's surroundings: what others commit, and how each network step ends. */
  datatype Attempt = Attempt(
    beforeSync: seq<Edit>,
    synced: bool,
    commitRaises: bool,
    beforePush: seq<Edit>,
    push: PushReply,
    cleanupRaises: bool)

  /** What has been retired before the commit is so after it. */
  ghost predicate Courteous(batch: seq<Item>, before: Files, after: Files) {
    forall r :: r in batch && Moved(before, r) ==> Moved(after, r)
  }

  ghost predicate Polite(batch: seq<Item>, edits: seq<Edit>) {
    forall n, before: Files :: 0 <= n < |edits| ==> Courteous(batch, before, edits[n](before))
  }

  ghost predicate AllPolite(batch: seq<Item>, attempts: nat -> Attempt) {
    forall n: nat :: Polite(batch, attempts(n).beforeSync) && Polite(batch, attempts(n).beforePush)
  }

  predicate Touches(batch: seq<Item>, p: Path) {
    exists r :: r in batch && (r.source == p || r.destination == p)
  }

  /** Any commit that leaves the batch's requests and records alone is polite, however many
      requests of the batch are still in the inbox. */
  lemma ElsewhereIsPolite(batch: seq<Item>, edit: Edit)
    requires forall before: Files, p :: Touches(batch, p) ==>
               (p in edit(before) <==> p in before) && (p in before ==> edit(before)[p] == before[p])
    ensures Polite(batch, [edit])
  {
    forall before: Files ensures Courteous(batch, before, edit(before)) {
      forall r | r in batch && Moved(before, r) ensures Moved(edit(before), r) {
        assert Touches(batch, r.source) && Touches(batch, r.destination);
      }
    }
  }

  /** And politeness asks of a commit no more than courtesy on the tree it was made on. */
  lemma CourtesyIsEnough(batch: seq<Item>, before: Files, after: Files) returns (edit: Edit)
    requires Courteous(batch, before, after)
    ensures Polite(batch, [edit]) && edit(before) == after
  {
    edit := (files: Files) => if files == before then after else files;
  }

  lemma PoliteAt(batch: seq<Item>, attempts: nat -> Attempt, n: nat)
    ensures AllPolite(batch, attempts) ==> Polite(batch, attempts(n).beforeSync) && Polite(batch, attempts(n).beforePush)
  {
  }

  datatype PushEnd = Confirmed | Unknown | Discarded

  /** Nothing in the attempt raises. */
  predicate Calm(a: Attempt) {
    a.synced && !a.commitRaises && !a.push.NoReply? && !a.cleanupRaises
  }

  /** Somebody else's commit arrives before the push, or the push is not confirmed. */
  predicate LosesRace(a: Attempt) {
    |a.beforePush| > 0 || a.push != Accepted
  }

  /** Why a call may raise: an attempt that raises after attempts that only lost the race, or
      no attempt left. */
  ghost predicate GaveUp(attempts: nat -> Attempt, retries: int) {
    || (forall k: nat :: k < retries ==> LosesRace(attempts(k)))
    || (exists m: nat :: m < retries && !Calm(attempts(m)) && forall k: nat :: k < m ==> LosesRace(attempts(k)))
  }

  ghost predicate AnyReady(files: Files, batch: seq<Item>) {
    exists i :: i in batch && IsReady(files, i)
  }

  ghost predicate CoversReported(files: Files, batch: seq<Item>, paths: set<Path>) {
    forall i :: i in batch && Reported(files, i) ==> i.source in paths
  }

  predicate ReportedSource(files: Files, batch: seq<Item>, p: Path) {
    exists i :: i in batch && Reported(files, i) && i.source == p
  }

  /** Some tree of the branch, from commit `from` on, has the path to report. */
  predicate SeenReported(log: seq<Files>, from: nat, batch: seq<Item>, p: Path) {
    exists n :: from <= n < |log| && ReportedSource(log[n], batch, p)
  }

  /** How a call that returned leaves the branch: with nothing to move at the tip, or with its
      own commit as the tip, made on a tree that had something to move. */
  ghost predicate Settled(log: seq<Files>, batch: seq<Item>, paths: set<Path>) {
    || (|log| > 0 && !AnyReady(log[|log| - 1], batch) && CoversReported(log[|log| - 1], batch, paths))
    || (|log| > 1 && AnyReady(log[|log| - 2], batch) && CoversReported(log[|log| - 2], batch, paths)
        && log[|log| - 1] == Apply(log[|log| - 2], batch))
  }

  /** The trees that the edits leave, one after the other. */
  function Edits(files: Files, edits: seq<Edit>): seq<Files>
    decreases |edits|
  {
    if |edits| == 0 then [] else [edits[0](files)] + Edits(edits[0](files), edits[1..])
  }

  class InboxBranch {
    var log: seq<Files>

    constructor (files: Files)
      ensures log == [files]
    {
      log := [files];
    }

    predicate Valid()
      reads this
    {
      log != []
    }

    function Tip(): Files
      requires Valid()
      reads this
    {
      log[|log| - 1]
    }

    /** Whoever is in `retired` has moved, at the tip of the branch. */
    ghost predicate AllMoved(batch: seq<Item>, retired: set<Path>)
      requires Valid()
      reads this
    {
      forall r :: r in batch && r.source in retired ==> Moved(Tip(), r)
    }

    /** Other clients' commits, one after the other, each made on the branch as it then is. */
    method Deliver(batch: seq<Item>, edits: seq<Edit>, retired: set<Path>)
      requires Valid()
      modifies this
      ensures Valid() && old(log) <= log
      ensures log == old(log) + Edits(old(Tip()), edits)
      ensures old(AllMoved(batch, retired)) && Polite(batch, edits) ==> AllMoved(batch, retired)
    {
      ghost var base := log;
      for n := 0 to |edits|
        invariant Valid() && base <= log
        invariant log + Edits(Tip(), edits[n..]) == base + Edits(base[|base| - 1], edits)
        invariant old(AllMoved(batch, retired)) && Polite(batch, edits) ==> AllMoved(batch, retired)
      {
        var next := edits[n](Tip());
        assert Polite(batch, edits) ==> Courteous(batch, Tip(), next);
        assert edits[n..][1..] == edits[n + 1..];
        assert log + ([next] + Edits(next, edits[n + 1..])) == (log + [next]) + Edits(next, edits[n + 1..]);
        log := log + [next];
      }
    }

    /** One look at the inbox: the sources already retired, and whether any item is ready. */
    method Survey(batch: seq<Item>, retired: set<Path>) returns (known: set<Path>, ready: set<Path>)
      requires Valid() && ValidBatch(batch)
      ensures retired <= known && (AllMoved(batch, retired) ==> AllMoved(batch, known))
      ensures forall p :: p in known <==> p in retired || AlreadySource(Tip(), batch, p)
      ensures forall p :: p in ready <==> ReadySource(Tip(), batch, p)
    {
      known, ready := retired, {};
      var files := Tip();
      for n := 0 to |batch|
        invariant retired <= known && (AllMoved(batch, retired) ==> AllMoved(batch, known))
        invariant forall p :: p in known <==>
          p in retired || exists i :: 0 <= i < n && Inspect(files, batch[i]).Already? && batch[i].source == p
        invariant forall p :: p in ready <==> exists i :: 0 <= i < n && IsReady(files, batch[i]) && batch[i].source == p
      {
        var r := batch[n];
        if Inspect(files, r).Already? {
          ReadyHolds(files, r);
          forall q | q in batch && q.source == r.source ensures q == r {
            var m :| 0 <= m < |batch| && batch[m] == q;
          }
          known := known + {r.source};
        } else if IsReady(files, r) {
          ready := ready + {r.source};
        }
      }
    }

    /** Push the commit made on `base`: taken only if the branch is still there. */
    method PushMoves(batch: seq<Item>, base: seq<Files>, next: Files, retired: set<Path>, ready: set<Path>, a: Attempt,
                     ghost promised: bool)
      returns (end: PushEnd)
      requires Valid() && log == base
      requires promised ==> AllMoved(batch, retired) && Polite(batch, a.beforePush)
      requires promised ==> forall r :: r in batch && r.source in retired + ready ==> Moved(next, r)
      modifies this
      ensures Valid() && old(log) <= log
      ensures promised ==> AllMoved(batch, retired)
      ensures promised && end == Confirmed ==> AllMoved(batch, retired + ready)
      ensures end == Confirmed ==> log == base + [next]
      ensures end == Unknown ==> a.push.NoReply? || a.cleanupRaises
      ensures end != Confirmed ==> LosesRace(a)
    {
      hide Moved, Polite;
      Deliver(batch, a.beforePush, retired);
      var stands := log == base;
      if stands && (a.push == Accepted || a.push == AppliedButReportedFailed || (a.push.NoReply? && a.push.applied)) {
        log := log + [next];
      }
      if a.push.NoReply? { return Unknown; }
      if stands && a.push == Accepted { return Confirmed; }
      return if a.cleanupRaises then Unknown else Discarded;
    }

    /** One attempt, adding to what earlier ones found retired. */
    method RetireOnce(batch: seq<Item>, retired: set<Path>, a: Attempt, ghost promised: bool)
      returns (end: PushEnd, known: set<Path>)
      requires Valid() && ValidBatch(batch) && forall p :: p in retired ==> IsSource(batch, p)
      requires promised ==> SafeBatch(batch) && AllMoved(batch, retired)
      requires promised ==> Polite(batch, a.beforeSync) && Polite(batch, a.beforePush)
      modifies this
      ensures Valid() && old(log) <= log && forall p :: p in known ==> IsSource(batch, p)
      ensures promised ==> AllMoved(batch, known)
      ensures forall p :: p in known ==> p in retired || SeenReported(log, |old(log)| - 1, batch, p)
      ensures end == Confirmed ==> Settled(log, batch, known)
      ensures end == Unknown ==> !Calm(a)
      ensures end == Discarded ==> LosesRace(a)
      ensures retired == {} && Undisturbed(a) ==> forall i :: i in batch ==> (i.source in known <==> Reported(old(Tip()), i))
    {
      hide SafeBatch, ValidBatch, Reported, Apply, ReadySource, AlreadySource, IsSource, Polite, Inspect, SeenReported;
      hide Settled;
      known := retired;
      Deliver(batch, a.beforeSync, retired);
      if !a.synced { return Unknown, known; }
      var files, base := Tip(), log;
      var ready;
      known, ready := Survey(batch, retired);
      ReportedSources(files, batch);
      Surveyed(base, |old(log)| - 1, batch, retired, known, ready);
      if ready == {} { return Confirmed, known; }
      var next := Apply(files, batch);
      if promised {
        MovesAll(files, batch, known, ready);
      }
      if a.commitRaises { return Unknown, known; }
      end := PushMoves(batch, base, next, known, ready, a, promised);
      StillSeen(base, log, |old(log)| - 1, batch);
      if end == Confirmed {
        known := known + ready;
        SettledByPush(base, next, batch, known, ready);
      }
    }

    /** `retire_tracked_paths`: None where it raises. */
    method RetireTrackedPaths(batch: seq<Item>, retries: int, attempts: nat -> Attempt) returns (r: Option<set<Path>>)
      requires Valid()
      modifies this
      ensures Valid() && old(log) <= log
      ensures batch == [] ==> r == Some({}) && log == old(log)
      ensures batch != [] && (!ValidBatch(batch) || retries < 1) ==> r == None && log == old(log)
      // of a safe batch every path returned has moved, for good, whatever was rejected or lost
      ensures r.Some? && SafeBatch(batch) && AllPolite(batch, attempts) ==> AllMoved(batch, r.value)
      ensures r.Some? ==> forall p :: p in r.value ==> IsSource(batch, p)
      // and every path returned was to be reported at some commit of the call
      ensures r.Some? ==> forall p :: p in r.value ==> SeenReported(log, |old(log)| - 1, batch, p)
      // with everything to report on the tree last fetched among them
      ensures r.Some? && batch != [] ==> Settled(log, batch, r.value)
      ensures batch != [] && ValidBatch(batch) && retries >= 1 && Undisturbed(attempts(0)) ==>
        r.Some? && forall i :: i in batch ==> (i.source in r.value <==> Reported(old(Tip()), i))
      // a call raises only where an attempt did, or where every attempt lost the race
      ensures r.None? && batch != [] && ValidBatch(batch) && retries >= 1 ==> GaveUp(attempts, retries)
    {
      if batch == [] { return Some({}); }
      if retries < 1 { return None; }
      if !ValidBatch(batch) { return None; }
      hide SafeBatch, ValidBatch, Reported, IsSource, Polite, Moved, AllPolite, SeenReported, Settled, Calm, LosesRace, AnyReady;
      ghost var promised := SafeBatch(batch) && AllPolite(batch, attempts);
      var retired: set<Path> := {};
      for n := 0 to retries
        invariant Valid() && old(log) <= log
        invariant promised ==> AllMoved(batch, retired)
        invariant forall p :: p in retired ==> IsSource(batch, p) && SeenReported(log, |old(log)| - 1, batch, p)
        invariant forall k: nat :: k < n ==> LosesRace(attempts(k))
        invariant n == 0 ==> retired == {} && log == old(log)
      {
        PoliteAt(batch, attempts, n);
        ghost var before := log;
        var end;
        end, retired := RetireOnce(batch, retired, attempts(n), promised);
        StillSeen(before, log, |old(log)| - 1, batch);
        SeenLater(log, |old(log)| - 1, |before| - 1, batch);
        if end == Confirmed { return Some(retired); }
        if end == Unknown { return None; }
      }
      return None;
    }
  }

  lemma StillSeen(before: seq<Files>, after: seq<Files>, from: nat, batch: seq<Item>)
    requires before <= after
    ensures forall p :: SeenReported(before, from, batch, p) ==> SeenReported(after, from, batch, p)
  {
    hide ReportedSource;
    forall p | SeenReported(before, from, batch, p) ensures SeenReported(after, from, batch, p) {
      var n :| from <= n < |before| && ReportedSource(before[n], batch, p);
      assert after[n] == before[n];
    }
  }

  lemma SeenLater(log: seq<Files>, from: nat, later: nat, batch: seq<Item>)
    requires from <= later
    ensures forall p :: SeenReported(log, later, batch, p) ==> SeenReported(log, from, batch, p)
  {
    hide ReportedSource;
  }

  /** What a survey found was to be reported; where it found nothing to move, that is all. */
  lemma Surveyed(log: seq<Files>, from: nat, batch: seq<Item>, retired: set<Path>, known: set<Path>, ready: set<Path>)
    requires from < |log| && ValidBatch(batch) && retired <= known
    requires forall p :: p in known <==> p in retired || AlreadySource(log[|log| - 1], batch, p)
    requires forall p :: p in ready <==> ReadySource(log[|log| - 1], batch, p)
    ensures forall p :: p in known + ready ==> p in retired || SeenReported(log, from, batch, p)
    ensures CoversReported(log[|log| - 1], batch, known + ready)
    ensures ready != {} <==> AnyReady(log[|log| - 1], batch)
    ensures ready == {} ==> Settled(log, batch, known)
  {
    hide Inspect;
    var files := log[|log| - 1];
    ReportedSources(files, batch);
    forall p | p in known + ready && p !in retired ensures SeenReported(log, from, batch, p) {
      hide ValidBatch, IsReady;
      assert AlreadySource(files, batch, p) || ReadySource(files, batch, p);
      var i :| 0 <= i < |batch| && Reported(files, batch[i]) && batch[i].source == p;
      assert batch[i] in batch;
      assert ReportedSource(files, batch, p);
    }
    if ready != {} {
      var p :| p in ready;
      var i :| 0 <= i < |batch| && IsReady(files, batch[i]) && batch[i].source == p;
      assert batch[i] in batch;
    }
    forall i | i in batch && IsReady(files, i) ensures i.source in ready {
      var j :| 0 <= j < |batch| && batch[j] == i;
      assert ReadySource(files, batch, i.source);
    }
  }

  lemma SettledByPush(base: seq<Files>, next: Files, batch: seq<Item>, known: set<Path>, ready: set<Path>)
    requires |base| > 0 && next == Apply(base[|base| - 1], batch)
    requires AnyReady(base[|base| - 1], batch) && CoversReported(base[|base| - 1], batch, known)
    ensures Settled(base + [next], batch, known)
  {
    hide AnyReady, CoversReported, Apply;
    var log := base + [next];
    assert log[|log| - 2] == base[|base| - 1];
  }

  /** An attempt that neither raises nor loses the race ends a call, if the ones before only
      lost the race. */
  lemma RetriesUntilPublished(attempts: nat -> Attempt, retries: int, n: nat)
    requires n < retries && Calm(attempts(n)) && !LosesRace(attempts(n))
    requires forall k: nat :: k < n ==> Calm(attempts(k))
    ensures !GaveUp(attempts, retries)
  {
    hide Calm, LosesRace;
  }

  /** The sources found retired or ready are exactly those reported. */
  lemma ReportedSources(files: Files, batch: seq<Item>)
    requires ValidBatch(batch)
    ensures forall r :: r in batch ==> (AlreadySource(files, batch, r.source) || ReadySource(files, batch, r.source) <==> Reported(files, r))
    ensures forall p :: AlreadySource(files, batch, p) || ReadySource(files, batch, p) ==> IsSource(batch, p)
  {
    hide Inspect;
    forall r | r in batch
      ensures AlreadySource(files, batch, r.source) || ReadySource(files, batch, r.source) <==> Reported(files, r)
    {
      var j :| 0 <= j < |batch| && batch[j] == r;
    }
    forall p | AlreadySource(files, batch, p) || ReadySource(files, batch, p) ensures IsSource(batch, p) {
      var i :| 0 <= i < |batch| && batch[i].source == p;
      assert batch[i] in batch;
    }
  }

  predicate IsSource(batch: seq<Item>, p: Path) {
    exists i :: i in batch && i.source == p
  }

  /** An attempt in which nobody interferes and nothing is lost. */
  predicate Undisturbed(a: Attempt) {
    |a.beforeSync| == 0 && Calm(a) && !LosesRace(a)
  }

  /** Both what was retired before and what this commit retires has moved in it. */
  lemma MovesAll(files: Files, batch: seq<Item>, retired: set<Path>, ready: set<Path>)
    requires ValidBatch(batch) && SafeBatch(batch)
    requires forall r :: r in batch && r.source in retired ==> Moved(files, r)
    requires forall p :: p in ready <==> ReadySource(files, batch, p)
    ensures forall r :: r in batch && r.source in retired + ready ==> Moved(Apply(files, batch), r)
  {
    forall r | r in batch && r.source in retired + ready ensures Moved(Apply(files, batch), r) {
      if r.source in retired {
        MovedStays(files, batch, r);
      } else {
        var i :| 0 <= i < |batch| && IsReady(files, batch[i]) && batch[i].source == r.source;
        var j :| 0 <= j < |batch| && batch[j] == r;
        SafeBatchMoves(files, batch, r);
      }
    }
  }
}
