/** `phased_task.py`, the checkpoint: five files and a lock that must fail closed.

Every write is atomic, but it may raise with or without having happened, and the process
may die before or after it.  A hash stands for its text, so equal hashes are equal texts. */
module Checkpoint {
  import opened Protocol
  import opened PhasedTask
  import opened PhasedGrammar

  datatype Identity = Identity(project: string, commandId: nat, runId: string, claimGeneration: nat)

  datatype Manifest = Manifest(
    identity: Identity,
    snapshot: seq<Line>,
    phases: seq<PhaseId>,
    globalFile: string,
    phaseFiles: seq<string>,
    finalFile: string)

  /** `current` is None for FINAL_ACCEPTANCE. */
  datatype Progress = Progress(
    identity: Identity,
    snapshot: seq<Line>,
    manifest: Manifest,
    phases: seq<PhaseId>,
    current: Option<PhaseId>,
    completed: seq<PhaseId>,
    finalVerified: bool,
    updatedAt: nat)

  datatype Disk = Disk(
    present: bool,
    snapshot: Option<seq<Line>>,
    manifest: Option<Manifest>,
    globalFile: Option<string>,
    currentFile: Option<string>,
    progress: Option<Progress>,
    futurePhaseFile: bool,
    locked: bool)

  datatype Fate = Lands | Raises(written: bool) | Dies(written: bool)

  datatype End = Completed | Aborted | Killed

  // ------------------------------------------------------------- validation

  function RightStrip(s: string): string {
    if s != [] && IsSpace(s[|s| - 1]) then RightStrip(s[..|s| - 1]) else s
  }

  function Projection(text: string): string {
    RightStrip(text) + "\n"
  }

  predicate PhasePrefix(phases: seq<PhaseId>) {
    1 <= |phases| <= |PHASE_IDS| && phases == PHASE_IDS[..|phases|]
  }

  function ManifestFor(t: Task, identity: Identity, snapshot: seq<Line>): Manifest {
    Manifest(identity, snapshot, t.phases, Projection(t.globalText),
             seq(|t.phaseTexts|, i requires 0 <= i < |t.phaseTexts| => Projection(t.phaseTexts[i])),
             Projection(t.finalText))
  }

  predicate ValidManifest(m: Manifest) {
    PhasePrefix(m.phases) && |m.phaseFiles| == |m.phases|
  }

  function CurrentAfter(phases: seq<PhaseId>, completed: nat): Option<PhaseId> {
    if completed < |phases| then Some(phases[completed]) else None
  }

  predicate ValidProgress(p: Progress) {
    && PhasePrefix(p.phases)
    && |p.completed| <= |p.phases|
    && p.completed == p.phases[..|p.completed|]
    && p.current == CurrentAfter(p.phases, |p.completed|)
    && (p.finalVerified ==> p.current.None?)
  }

  /** The text current-phase.md must hold. */
  function CurrentText(t: Task, p: Progress): string {
    if |p.completed| < |t.phaseTexts| then t.phaseTexts[|p.completed|] else t.finalText
  }

  /** `_inspect_runtime`: the progress it returns, None where it raises. */
  function Inspect(d: Disk): Option<Progress> {
    if !d.present || d.manifest.None? || !ValidManifest(d.manifest.value) then None else
    var m := d.manifest.value;
    if d.snapshot != Some(m.snapshot) || !Parse(m.snapshot).Phased? then None else
    var t := Parse(m.snapshot).task;
    if m != ManifestFor(t, m.identity, m.snapshot) then None else
    if d.progress.None? || !ValidProgress(d.progress.value) then None else
    var p := d.progress.value;
    if p.identity != m.identity || p.snapshot != m.snapshot || p.phases != m.phases || p.manifest != m then None
    else if d.globalFile != Some(m.globalFile) then None
    else if d.currentFile != Some(Projection(CurrentText(t, p))) then None
    else if d.futurePhaseFile then None
    else Some(p)
  }

  // ------------------------------------------------------- what passing means

  /** The one directory, lock aside, that a record and its task belong to. */
  ghost predicate Belongs(d: Disk, p: Progress) {
    && Parse(p.snapshot).Phased?
    && var t := Parse(p.snapshot).task;
    && TaskOk(t) && p.phases == t.phases
    && p.manifest == Manifest(p.identity, p.snapshot, t.phases, Projection(t.globalText),
                              seq(|t.phaseTexts|, i requires 0 <= i < |t.phaseTexts| => Projection(t.phaseTexts[i])),
                              Projection(t.finalText))
    && p.completed <= t.phases
    && var n := |p.completed|;
    && p.current == (if n < |t.phases| then Some(t.phases[n]) else None)
    && (p.finalVerified ==> n == |t.phases|)
    && d == Disk(true, Some(p.snapshot), Some(p.manifest), Some(Projection(t.globalText)),
                 Some(Projection(if n < |t.phases| then t.phaseTexts[n] else t.finalText)), Some(p), false, d.locked)
  }

  /** Inspection passes on exactly the directories that belong to the record it returns. */
  lemma InspectIff(d: Disk, p: Progress)
    ensures Inspect(d) == Some(p) <==> Belongs(d, p)
  {
    if Parse(p.snapshot).Phased? {
      ParsedIsOk(p.snapshot);
    }
    hide Parse, Projection;
  }

  /** So two directories that pass with the same record are the same in every file. */
  lemma InspectionPins(d: Disk, e: Disk)
    requires Inspect(d).Some? && Inspect(e) == Inspect(d)
    ensures d == e.(locked := d.locked)
  {
    InspectIff(d, Inspect(d).value);
    InspectIff(e, Inspect(d).value);
    hide Inspect, Parse, Projection;
  }

  /** And one that passed fails once its current text alone has been rewritten: half a
      transition. */
  lemma TornFails(d: Disk, e: Disk)
    requires Inspect(d).Some? && e.progress == d.progress && e.currentFile != d.currentFile
    ensures Inspect(e).None?
  {
    if Inspect(e).Some? {
      InspectIff(d, Inspect(d).value);
      InspectIff(e, Inspect(e).value);
    }
    hide Inspect, Parse, Projection;
  }

  /** The directory after one phase more: the record, the text of the next phase or of final
      acceptance, and nothing else. */
  ghost predicate AdvancedDisk(before: Disk, after: Disk, phase: PhaseId, now: nat) {
    && before.progress.Some? && Parse(before.progress.value.snapshot).Phased?
    && var p, t := before.progress.value, Parse(before.progress.value.snapshot).task;
    && var n := |p.completed| + 1;
    && p.current == Some(phase) && |t.phaseTexts| == |t.phases| && n <= |t.phases| && t.phases[n - 1] == phase
    && after == before.(progress := Some(Progress(p.identity, p.snapshot, p.manifest, p.phases,
                                                  if n < |t.phases| then Some(t.phases[n]) else None,
                                                  p.completed + [phase], false, now)),
                        currentFile := Some(Projection(if n < |t.phases| then t.phaseTexts[n] else t.finalText)),
                        locked := after.locked)
  }

  lemma AdvancedIs(before: Disk, after: Disk, phase: PhaseId, now: nat)
    requires Inspect(before).Some? && Inspect(before).value.current == Some(phase)
    requires Inspect(after) == Some(Advanced(Inspect(before).value, now))
    requires after.(currentFile := before.currentFile, progress := before.progress, locked := before.locked) == before
    ensures AdvancedDisk(before, after, phase, now)
  {
    InspectIff(before, Inspect(before).value);
    InspectIff(after, Inspect(after).value);
    hide Inspect, Parse, Projection;
  }

  /** The directory after final acceptance: the mark and its time, and nothing else. */
  ghost predicate VerifiedDisk(before: Disk, after: Disk, now: nat) {
    && before.progress.Some? && before.progress.value.completed == before.progress.value.phases
    && !before.progress.value.finalVerified
    && after == before.(progress := Some(before.progress.value.(finalVerified := true, updatedAt := now)), locked := after.locked)
  }

  lemma VerifiedIs(before: Disk, after: Disk, now: nat, end: End)
    requires RecordStep(before, after, CompleteFinal, now, end) && end == Completed
    ensures VerifiedDisk(before, after, now)
  {
    var p := Inspect(before).value;
    InspectIff(before, p);
    InspectIff(after, Inspect(after).value);
    hide Inspect, Parse, Projection;
  }

  /** The directory that preparation leaves: every text in its place, the first phase current. */
  ghost predicate FreshDisk(d: Disk, command: seq<Line>, identity: Identity, now: nat) {
    && Parse(command).Phased?
    && var t := Parse(command).task;
    && |t.phaseTexts| == |t.phases| > 0
    && var m := Manifest(identity, command, t.phases, Projection(t.globalText),
                         seq(|t.phaseTexts|, i requires 0 <= i < |t.phaseTexts| => Projection(t.phaseTexts[i])),
                         Projection(t.finalText));
    && d == Disk(true, Some(command), Some(m), Some(Projection(t.globalText)), Some(Projection(t.phaseTexts[0])),
                 Some(Progress(identity, command, m, t.phases, Some(t.phases[0]), [], false, now)), false, d.locked)
  }

  lemma PreparedIs(d: Disk, command: seq<Line>, identity: Identity, now: nat)
    requires Parse(command).Phased? && TaskOk(Parse(command).task)
    requires Inspect(d) == Some(Initial(ManifestFor(Parse(command).task, identity, command), now))
    ensures FreshDisk(d, command, identity, now)
  {
    InspectIff(d, Inspect(d).value);
    hide Inspect, Parse, Projection;
  }

  /** However a call that may only write these two files ends, what passes afterwards is the
      directory as it was or one phase on, in every file. */
  ghost predicate OldOrAdvanced(before: Disk, after: Disk, phase: PhaseId, now: nat, end: End) {
    && (end == Completed ==> AdvancedDisk(before, after, phase, now))
    && (Inspect(before).Some? && Inspect(after).Some? ==>
          after == before.(locked := after.locked) || AdvancedDisk(before, after, phase, now))
    && (Inspect(before).Some? && after.progress == before.progress && after.currentFile != before.currentFile ==>
          Inspect(after).None?)
  }

  lemma StepIsOldOrAdvanced(before: Disk, after: Disk, phase: PhaseId, now: nat, end: End)
    requires RecordStep(before, after, Advance(phase), now, end)
    ensures OldOrAdvanced(before, after, phase, now, end)
  {
    hide Inspect, AdvancedDisk, Advanced;
    if Inspect(before).Some? && Inspect(after).Some? {
      if Inspect(after) == Inspect(before) {
        InspectionPins(after, before);
      }
      if Inspect(before).value.current == Some(phase) && Inspect(after) == Some(Advanced(Inspect(before).value, now)) {
        AdvancedIs(before, after, phase, now);
      }
    }
    if Inspect(before).Some? && after.progress == before.progress && after.currentFile != before.currentFile {
      TornFails(before, after);
    }
  }

  /** A stripped text is shown as it is, on lines of its own. */
  lemma ProjectionShows(text: string)
    requires Stripped(text)
    ensures Projection(text) == text + "\n"
  {
  }

  // ------------------------------------------------------- progress, abstractly

  function Initial(m: Manifest, now: nat): Progress
    requires m.phases != []
  {
    Progress(m.identity, m.snapshot, m, m.phases, Some(m.phases[0]), [], false, now)
  }

  function Advanced(p: Progress, now: nat): Progress
    requires p.current.Some?
  {
    p.(completed := p.completed + [p.current.value],
       current := CurrentAfter(p.phases, |p.completed| + 1),
       finalVerified := false,
       updatedAt := now)
  }

  function Verified(p: Progress, now: nat): Progress {
    p.(finalVerified := true, updatedAt := now)
  }

  datatype Request = Advance(phase: PhaseId) | CompleteFinal

  /** The record a request asks for, where it is in order. */
  function Asked(p: Progress, request: Request, now: nat): Option<Progress> {
    match request
    case Advance(phase) => if p.current == Some(phase) then Some(Advanced(p, now)) else None
    case CompleteFinal => if p.current.None? && !p.finalVerified then Some(Verified(p, now)) else None
  }

  ghost predicate InOrder(d: Disk, request: Request) {
    Inspect(d).Some? && Asked(Inspect(d).value, request, 0).Some?
  }

  ghost predicate AllLand(fates: nat -> Fate, n: nat) {
    forall i :: 0 <= i < n ==> fates(i) == Lands
  }

  /** What the body of a helper call, under the lock, may do to the run directory. */
  ghost predicate RecordStep(before: Disk, after: Disk, request: Request, now: nat, end: End) {
    var seen := Inspect(before);
    var asked := if seen.Some? then Asked(seen.value, request, now) else None;
    // an inspection afterwards fails, or sees exactly the old or the new record
    && (Inspect(after).None? || Inspect(after) == seen || (asked.Some? && Inspect(after) == asked))
    // success is exactly the new record
    && (end == Completed ==> asked.Some? && Inspect(after) == asked)
    // a request out of order, or on a directory that fails inspection, writes nothing
    && (asked.None? ==> end != Completed && after.(locked := before.locked) == before)
    && after.(currentFile := before.currentFile, progress := before.progress, locked := before.locked) == before
  }

  /** What one helper call may do, however it ends. */
  ghost predicate HelperStep(before: Disk, after: Disk, request: Request, now: nat, end: End) {
    && RecordStep(before, after, request, now, end)
    // a lock left by a dead helper keeps every later one out
    && (before.locked ==> end == Aborted && after == before)
  }

  lemma RecordStepUnlocked(before: Disk, after: Disk, request: Request, now: nat, end: End, b: bool, a: bool)
    requires RecordStep(before, after, request, now, end)
    ensures RecordStep(before.(locked := b), after.(locked := a), request, now, end)
  {
    LockUnseen(before, b);
    LockUnseen(after, a);
    hide Inspect, Asked;
  }

  lemma RecordUntouched(d: Disk, request: Request, now: nat, end: End)
    requires end != Completed
    ensures RecordStep(d, d, request, now, end)
  {
  }

  /** Inspection does not look at the lock. */
  lemma LockUnseen(d: Disk, l: bool)
    ensures Inspect(d.(locked := l)) == Inspect(d)
  {
  }

  // ---------------------------------------------------------- the directory

  class RunDirectory {
    var present: bool
    var snapshot: Option<seq<Line>>
    var manifest: Option<Manifest>
    var globalFile: Option<string>
    var currentFile: Option<string>
    var progress: Option<Progress>
    var futurePhaseFile: bool
    var locked: bool

    function View(): Disk
      reads this
    {
      Disk(present, snapshot, manifest, globalFile, currentFile, progress, futurePhaseFile, locked)
    }

    constructor ()
      ensures View() == Disk(false, None, None, None, None, None, false, false)
    {
      present, futurePhaseFile, locked := false, false, false;
      snapshot, manifest, globalFile, currentFile, progress := None, None, None, None, None;
    }

    static function EndOf(fate: Fate): End {
      match fate
      case Lands => Completed
      case Raises(_) => Aborted
      case Dies(_) => Killed
    }

    static predicate Written(fate: Fate) {
      fate == Lands || ((fate.Raises? || fate.Dies?) && fate.written)
    }

    method WriteCurrent(text: Option<string>, fate: Fate) returns (end: End)
      modifies this`currentFile
      ensures end == EndOf(fate) && currentFile == if Written(fate) then text else old(currentFile)
    {
      if Written(fate) { currentFile := text; }
      return EndOf(fate);
    }

    method WriteProgress(p: Option<Progress>, fate: Fate) returns (end: End)
      modifies this`progress
      ensures end == EndOf(fate) && progress == if Written(fate) then p else old(progress)
    {
      if Written(fate) { progress := p; }
      return EndOf(fate);
    }

    /** `prepare_runtime`: five writes, the progress record last. */
    method PrepareRuntime(command: seq<Line>, identity: Identity, now: nat, fates: nat -> Fate) returns (end: End)
      modifies this
      ensures old(present) || !Parse(command).Phased? ==> end == Aborted && View() == old(View())
      ensures !old(present) && Parse(command).Phased? ==>
        var initial := Initial(ManifestFor(Parse(command).task, identity, command), now);
        && locked == old(locked)
        && (end == Completed ==> Inspect(View()) == Some(initial) && FreshDisk(View(), command, identity, now))
        && (end == Completed <==> AllLand(fates, 5))
        && (old(View()) == Disk(false, None, None, None, None, None, false, old(locked)) ==>
              Inspect(View()) == None || Inspect(View()) == Some(initial))
    {
      hide Parse, ValidManifest, ValidProgress, CurrentText, Projection, PhasePrefix, RightStrip;
      var parsed := Parse(command);
      if !parsed.Phased? { return Aborted; }
      if present { return Aborted; }
      ParsedIsOk(command);
      present, futurePhaseFile := true, false;
      var m := ManifestFor(parsed.task, identity, command);
      if Written(fates(0)) { snapshot := Some(command); }
      if fates(0) != Lands { return EndOf(fates(0)); }
      if Written(fates(1)) { manifest := Some(m); }
      if fates(1) != Lands { return EndOf(fates(1)); }
      if Written(fates(2)) { globalFile := Some(Projection(parsed.task.globalText)); }
      if fates(2) != Lands { return EndOf(fates(2)); }
      end := WriteCurrent(Some(Projection(parsed.task.phaseTexts[0])), fates(3));
      if end != Completed { return; }
      end := WriteProgress(Some(Initial(m, now)), fates(4));
      if end == Completed {
        PreparedInspects(View(), command, identity, now);
        PreparedIs(View(), command, identity, now);
      }
    }

    /** `_write_transition`: the projection, then the record; on an exception, both back. */
    method WriteTransition(next: Progress, text: string, fates: nat -> Fate) returns (end: End)
      modifies this`currentFile, this`progress
      ensures progress == old(progress) || progress == Some(next)
      ensures end == Completed ==> progress == Some(next) && currentFile == Some(Projection(text))
      ensures end == Completed <==> fates(1) == Lands && fates(2) == Lands
      ensures end == Aborted && fates(3) == Lands && fates(4) == Lands ==>
        progress == old(progress) && currentFile == old(currentFile)
      // half a transition on a directory that passed leaves one that does not
      ensures old(Inspect(View())).Some? && progress == old(progress) && currentFile != old(currentFile) ==>
        Inspect(View()).None?
    {
      hide Inspect;
      ghost var before := View();
      var oldProgress, oldProjection := progress, currentFile;
      end := WriteCurrent(Some(Projection(text)), fates(1));
      if end == Completed {
        end := WriteProgress(Some(next), fates(2));
      }
      if end == Aborted {
        var restored := WriteCurrent(oldProjection, fates(3));
        if restored == Completed {
          restored := WriteProgress(oldProgress, fates(4));
        }
        if restored == Killed { end := Killed; }
      }
      if Inspect(before).Some? && progress == before.progress && currentFile != before.currentFile {
        TornFails(before, View());
      }
    }

    /** The body of `advance_phase`. */
    method AdvanceRecord(phase: PhaseId, now: nat, fates: nat -> Fate) returns (end: End)
      modifies this`currentFile, this`progress
      ensures RecordStep(old(View()), View(), Advance(phase), now, end)
      ensures end == Aborted && fates(3) == fates(4) == Lands ==> View() == old(View())
      ensures end == Completed <==> old(InOrder(View(), Advance(phase))) && fates(1) == fates(2) == Lands
    {
      hide Inspect, CurrentText;
      var seen := Inspect(View());
      if seen.None? || seen.value.current != Some(phase) { return Aborted; }
      InspectSees(View());
      AdvancedInspects(View(), phase, now);
      var next := Advanced(seen.value, now);
      end := WriteTransition(next, CurrentText(Parse(manifest.value.snapshot).task, next), fates);
      InspectSees(View());
    }

    /** `advance_phase`, under the per-run lock. */
    method AdvancePhase(phase: PhaseId, now: nat, fates: nat -> Fate) returns (end: End)
      modifies this
      ensures HelperStep(old(View()), View(), Advance(phase), now, end)
      // success is one phase on in every file; half a transition does not pass
      ensures OldOrAdvanced(old(View()), View(), phase, now, end)
      // a failure whose rollback goes through leaves the directory as it was
      ensures end == Aborted && fates(0) == fates(3) == fates(4) == fates(5) == Lands ==> View() == old(View())
      ensures end == Completed <==>
        !old(locked) && old(InOrder(View(), Advance(phase))) && fates(0) == fates(1) == fates(2) == Lands
      // the lock outlives the call exactly where the helper dies under it or cannot remove it
      ensures !old(locked) && fates(0) == Lands ==> (locked <==> end == Killed || fates(5) != Lands)
    {
      hide RecordStep, OldOrAdvanced;
      RecordUntouched(View(), Advance(phase), now, Aborted);
      StepIsOldOrAdvanced(View(), View(), phase, now, Aborted);
      if locked { return Aborted; }
      ghost var before := View();
      LockUnseen(before, true);
      if fates(0) != Lands {
        locked := Written(fates(0));
        RecordUntouched(View(), Advance(phase), now, EndOf(fates(0)));
        RecordStepUnlocked(View(), View(), Advance(phase), now, EndOf(fates(0)), false, locked);
        StepIsOldOrAdvanced(before, View(), phase, now, EndOf(fates(0)));
        return EndOf(fates(0));
      }
      locked := true;
      end := AdvanceRecord(phase, now, fates);
      RecordStepUnlocked(before.(locked := true), View(), Advance(phase), now, end, false, true);
      RecordStepUnlocked(before.(locked := true), View(), Advance(phase), now, end, false, false);
      if end != Killed && fates(5) == Lands {
        locked := false;
      }
      StepIsOldOrAdvanced(before, View(), phase, now, end);
    }

    /** The body of `complete_final`: one write. */
    method VerifyRecord(now: nat, fate: Fate) returns (end: End)
      modifies this`progress
      ensures RecordStep(old(View()), View(), CompleteFinal, now, end)
      ensures end == Completed <==> old(InOrder(View(), CompleteFinal)) && fate == Lands
    {
      hide Inspect;
      var seen := Inspect(View());
      if seen.None? || seen.value.current.Some? || seen.value.finalVerified { return Aborted; }
      VerifiedInspects(View(), now);
      end := WriteProgress(Some(Verified(seen.value, now)), fate);
    }

    /** `complete_final`, under the same lock. */
    method CompleteFinalAcceptance(now: nat, fates: nat -> Fate) returns (end: End)
      modifies this
      ensures HelperStep(old(View()), View(), CompleteFinal, now, end)
      // success marks the record verified after its last phase, and changes nothing else
      ensures end == Completed ==> VerifiedDisk(old(View()), View(), now)
      ensures end == Completed <==>
        !old(locked) && old(InOrder(View(), CompleteFinal)) && fates(0) == fates(1) == Lands
      ensures !old(locked) && fates(0) == Lands ==> (locked <==> end == Killed || fates(2) != Lands)
    {
      hide RecordStep, VerifiedDisk;
      RecordUntouched(View(), CompleteFinal, now, Aborted);
      if locked { return Aborted; }
      ghost var before := View();
      LockUnseen(before, true);
      if fates(0) != Lands {
        locked := Written(fates(0));
        RecordUntouched(View(), CompleteFinal, now, EndOf(fates(0)));
        RecordStepUnlocked(View(), View(), CompleteFinal, now, EndOf(fates(0)), false, locked);
        return EndOf(fates(0));
      }
      locked := true;
      end := VerifyRecord(now, fates(1));
      RecordStepUnlocked(before.(locked := true), View(), CompleteFinal, now, end, false, true);
      RecordStepUnlocked(before.(locked := true), View(), CompleteFinal, now, end, false, false);
      if end != Killed && fates(2) == Lands {
        locked := false;
      }
      if end == Completed {
        VerifiedIs(before, View(), now, end);
      }
    }

    /** Remove the first, second or third of the large files; an exception may come from a file
        that is already gone. */
    method Unlink(which: nat, fate: Fate) returns (end: End)
      requires which < 3
      modifies this`snapshot, this`globalFile, this`currentFile
      ensures end == EndOf(fate)
      ensures View() == if Written(fate) then Without(old(View()), which) else old(View())
    {
      if Written(fate) {
        match which
        case 0 => snapshot := None;
        case 1 => globalFile := None;
        case 2 => currentFile := None;
      }
      return EndOf(fate);
    }

    /** `safe_compact_successful_run`: whether it compacted, where it returns. */
    method SafeCompact(outcome: Outcome, published: bool, pending: bool, unresolved: bool, conflict: bool, fates: nat -> Fate)
      returns (end: End, compacted: bool)
      modifies this
      // a gate that is against it: nothing happens
      ensures !(outcome == Success && published && !pending && !unresolved && !conflict) ==>
        end == Completed && !compacted && View() == old(View())
      // otherwise the directory must pass inspection with final acceptance verified
      ensures outcome == Success && published && !pending && !unresolved && !conflict ==>
        if old(Inspect(View())).None? || !old(Inspect(View())).value.finalVerified
        then end == Aborted && View() == old(View())
        else
          // and then the files go one after the other, as far as the call gets
          && (exists k: nat :: k <= 3 && View() == Compacted(old(View()), k) && (end == Completed ==> k == 3))
          && (end == Completed <==> compacted)
          && (end == Completed <==> fates(0) == fates(1) == fates(2) == Lands)
          && (View() != old(View()) ==> Inspect(View()).None?)
    {
      if outcome != Success || !published || pending || unresolved || conflict { return Completed, false; }
      var seen := Inspect(View());
      if seen.None? || !seen.value.finalVerified { return Aborted, false; }
      hide Inspect;
      for i := 0 to 3
        invariant View() == Compacted(old(View()), i)
        invariant forall j: nat :: j < i ==> fates(j) == Lands
      {
        WithoutNext(old(View()), i);
        CompactedFails(old(View()), i);
        CompactedFails(old(View()), i + 1);
        end := Unlink(i, fates(i));
        if end != Completed { return end, false; }
      }
      CompactedFails(old(View()), 3);
      return Completed, true;
    }
  }

  /** The disk without the first, second or third large file. */
  function Without(d: Disk, which: nat): Disk {
    match which
    case 0 => d.(snapshot := None)
    case 1 => d.(globalFile := None)
    case _ => d.(currentFile := None)
  }

  /** The disk after `k` of the three removals. */
  function Compacted(d: Disk, k: nat): Disk {
    if k == 0 then d else Without(Compacted(d, k - 1), k - 1)
  }

  lemma WithoutNext(d: Disk, k: nat)
    ensures Compacted(d, k + 1) == Without(Compacted(d, k), k)
  {
  }

  /** Once the first file is gone, inspection fails for good: a compaction cut short is never
      resumed. */
  lemma {:induction false} CompactedFails(d: Disk, k: nat)
    ensures k > 0 ==> Compacted(d, k).snapshot.None? && Inspect(Compacted(d, k)).None?
  {
    if k > 1 {
      CompactedFails(d, k - 1);
    }
  }

  lemma InspectSees(d: Disk)
    ensures Inspect(d).Some? ==>
      Inspect(d) == d.progress && d.manifest.Some? && Parse(d.manifest.value.snapshot).Phased?
  {
  }

  /** The five files that preparation writes pass inspection together. */
  lemma PreparedInspects(d: Disk, command: seq<Line>, identity: Identity, now: nat)
    requires Parse(command).Phased?
    requires var t := Parse(command).task; var m := ManifestFor(t, identity, command);
             && TaskOk(t)
             && d == Disk(true, Some(command), Some(m), Some(Projection(t.globalText)),
                          Some(Projection(t.phaseTexts[0])), Some(Initial(m, now)), false, d.locked)
    ensures var m := ManifestFor(Parse(command).task, identity, command);
            Inspect(d) == Some(Initial(m, now))
  {
    hide Parse, RightStrip;
  }

  /** The record and projection that an advance writes pass inspection together. */
  lemma AdvancedInspects(d: Disk, phase: PhaseId, now: nat)
    requires Inspect(d).Some? && Inspect(d).value.current == Some(phase)
    ensures var next := Advanced(Inspect(d).value, now);
            var text := CurrentText(Parse(d.manifest.value.snapshot).task, next);
            Inspect(d.(progress := Some(next), currentFile := Some(Projection(text)))) == Some(next)
  {
    var p := Inspect(d).value;
    var next := Advanced(p, now);
    assert next.completed == p.phases[..|next.completed|];
  }

  lemma VerifiedInspects(d: Disk, now: nat)
    requires Inspect(d).Some? && Inspect(d).value.current.None?
    ensures var next := Verified(Inspect(d).value, now);
            Inspect(d.(progress := Some(next))) == Some(next)
  {
  }

  // ------------------------------------------------------------- whole runs

  datatype Call = Call(request: Request, now: nat, end: End)

  ghost predicate StepAt(disks: seq<Disk>, calls: seq<Call>, i: nat)
    requires |disks| == |calls| + 1 && i < |calls|
  {
    HelperStep(disks[i], disks[i + 1], calls[i].request, calls[i].now, calls[i].end)
  }

  /** A run directory from its preparation through any calls, ending any way. */
  ghost predicate History(disks: seq<Disk>, calls: seq<Call>, m: Manifest, prepared: nat) {
    && |disks| == |calls| + 1
    && m.phases != []
    && (Inspect(disks[0]).None? || Inspect(disks[0]) == Some(Initial(m, prepared)))
    && forall i :: 0 <= i < |calls| ==> StepAt(disks, calls, i)
  }

  /** The calls contain, in this order, an advance for each completed phase and, where it is
      verified, the final acceptance. */
  ghost predicate Earned(calls: seq<Call>, completed: seq<PhaseId>, finalVerified: bool)
    decreases |completed|, finalVerified
  {
    if finalVerified then
      exists j :: 0 <= j < |calls| && calls[j].request == CompleteFinal && Earned(calls[..j], completed, false)
    else if completed == [] then true
    else exists j :: 0 <= j < |calls| && calls[j].request == Advance(completed[|completed| - 1])
                     && Earned(calls[..j], completed[..|completed| - 1], false)
  }

  lemma {:induction false} EarnedMonotone(calls: seq<Call>, n: nat, completed: seq<PhaseId>, finalVerified: bool)
    requires n <= |calls| && Earned(calls[..n], completed, finalVerified)
    ensures Earned(calls, completed, finalVerified)
  {
    if finalVerified {
      var j :| 0 <= j < n && calls[..n][j].request == CompleteFinal && Earned(calls[..n][..j], completed, false);
      assert calls[..n][..j] == calls[..j] && calls[j] == calls[..n][j];
    } else if completed != [] {
      var j :| 0 <= j < n && calls[..n][j].request == Advance(completed[|completed| - 1])
               && Earned(calls[..n][..j], completed[..|completed| - 1], false);
      assert calls[..n][..j] == calls[..j] && calls[j] == calls[..n][j];
    }
  }

  /** Whatever crashes and failures came before, progress that passes inspection was earned:
      every completed phase by its own advance, in order, and final acceptance after them. */
  lemma {:induction false} ProgressIsEarned(disks: seq<Disk>, calls: seq<Call>, m: Manifest, prepared: nat)
    requires History(disks, calls, m, prepared) && Inspect(disks[|calls|]).Some?
    ensures var p := Inspect(disks[|calls|]).value;
            ValidProgress(p) && p.phases == m.phases && Earned(calls, p.completed, p.finalVerified)
    decreases |calls|
  {
    if calls != [] {
      var n := |calls| - 1;
      assert StepAt(disks, calls, n);
      StepSees(disks[n], disks[n + 1], calls[n].request, calls[n].now, calls[n].end);
      HistoryPrefix(disks, calls, m, prepared);
      hide Inspect, Asked, Earned, ValidProgress, HelperStep;
      ProgressIsEarned(disks[..n + 1], calls[..n], m, prepared);
      EarnedStep(calls, Inspect(disks[n]).value, Inspect(disks[n + 1]).value);
    }
  }

  lemma StepSees(before: Disk, after: Disk, request: Request, now: nat, end: End)
    requires HelperStep(before, after, request, now, end) && Inspect(after).Some?
    ensures Inspect(before).Some?
    ensures Inspect(after) == Inspect(before) || Inspect(after) == Asked(Inspect(before).value, request, now)
  {
    hide Inspect, Asked;
  }

  lemma HistoryPrefix(disks: seq<Disk>, calls: seq<Call>, m: Manifest, prepared: nat)
    requires History(disks, calls, m, prepared) && calls != []
    ensures History(disks[..|calls|], calls[..|calls| - 1], m, prepared)
  {
    hide HelperStep, Inspect;
    var g, c := disks[..|calls|], calls[..|calls| - 1];
    forall i | 0 <= i < |c| ensures StepAt(g, c, i) {
      assert StepAt(disks, calls, i);
    }
  }

  lemma EarnedStep(calls: seq<Call>, p: Progress, q: Progress)
    requires calls != [] && ValidProgress(p) && Earned(calls[..|calls| - 1], p.completed, p.finalVerified)
    requires q == p || Asked(p, calls[|calls| - 1].request, calls[|calls| - 1].now) == Some(q)
    ensures Earned(calls, q.completed, q.finalVerified)
  {
    var n := |calls| - 1;
    EarnedMonotone(calls, n, p.completed, p.finalVerified);
    if q != p && calls[n].request.Advance? {
      assert q.completed[..|q.completed| - 1] == p.completed;
      assert calls[n].request == Advance(q.completed[|q.completed| - 1]);
    }
  }

  /** Progress never goes back from one call to the next, and a directory that has failed
      inspection never passes again. */
  lemma NeverBack(disks: seq<Disk>, calls: seq<Call>, m: Manifest, prepared: nat, i: nat)
    requires History(disks, calls, m, prepared) && i < |calls|
    ensures Inspect(disks[i]).None? ==> Inspect(disks[i + 1]).None?
    ensures Inspect(disks[i + 1]).Some? ==>
      var p, q := Inspect(disks[i]).value, Inspect(disks[i + 1]).value;
      p.completed <= q.completed && |q.completed| <= |p.completed| + 1 && (p.finalVerified ==> q.finalVerified)
  {
    assert StepAt(disks, calls, i);
    hide Inspect, HelperStep;
    if Inspect(disks[i + 1]).Some? {
      StepSees(disks[i], disks[i + 1], calls[i].request, calls[i].now, calls[i].end);
    }
  }

  /** A helper that died holding the lock was the last to change anything. */
  lemma {:induction false} LockIsForever(disks: seq<Disk>, calls: seq<Call>, m: Manifest, prepared: nat, i: nat, j: nat)
    requires History(disks, calls, m, prepared) && i <= j < |disks| && disks[i].locked
    ensures disks[j] == disks[i]
    ensures forall k :: i <= k < j ==> calls[k].end == Aborted
    decreases j
  {
    if i < j {
      LockIsForever(disks, calls, m, prepared, i, j - 1);
      assert StepAt(disks, calls, j - 1);
    }
  }

  // ------------------------------------------------------ the Worker's gate

  /** The phased gate on a run's outcome, after the process has exited. */
  function GatedOutcome(outcome: Outcome, seen: Option<Progress>): Outcome {
    if outcome == Success && (seen.None? || !seen.value.finalVerified) then FailedRun else outcome
  }

  /** The gate stops a success without verified final acceptance, and nothing else. */
  lemma GateStops(outcome: Outcome, seen: Option<Progress>)
    ensures GatedOutcome(outcome, seen) == Success <==> outcome == Success && seen.Some? && seen.value.finalVerified
    ensures GatedOutcome(outcome, seen) != outcome ==> outcome == Success && GatedOutcome(outcome, seen) == FailedRun
  {
  }

  /** A phased run is reported SUCCESS only if every declared phase was advanced, in order,
      and final acceptance was verified after the last of them. */
  lemma SuccessMeansAllPhases(disks: seq<Disk>, calls: seq<Call>, m: Manifest, prepared: nat, outcome: Outcome)
    requires History(disks, calls, m, prepared)
    requires GatedOutcome(outcome, Inspect(disks[|calls|])) == Success
    ensures outcome == Success && Earned(calls, m.phases, true)
  {
    ProgressIsEarned(disks, calls, m, prepared);
    var p := Inspect(disks[|calls|]).value;
    assert p.completed == p.phases;
  }
}
