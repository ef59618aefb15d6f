/** `executor.py`: rewriting the Codex argument vector for one run. */
module Executor {
  import opened Protocol
  import opened PhasedTask

  const FULL_ACCESS := "--dangerously-bypass-approvals-and-sandbox"

  const IGNORE_USER_CONFIG := "--ignore-user-config"
  const IGNORE_RULES := "--ignore-rules"

  datatype ArgKind =
    | ModelFlag
    | ModelInline(value: string)
    | ConfigFlag
    | ConfigInline(value: string)
    | FullAccess
    | IgnoreUserConfig
    | IgnoreRules
    | Workdir
    | Conflict
    | Other

  predicate Starts(s: string, p: string) {
    |p| <= |s| && s[..|p|] == p
  }

  /** What an argument is, where it stands as an argument of its own. */
  function KindOf(s: string): ArgKind {
    if s == "-m" || s == "--model" then ModelFlag
    else if Starts(s, "--model=") then ModelInline(s[8..])
    else if Starts(s, "-m=") then ModelInline(s[3..])
    else if s == "-c" || s == "--config" then ConfigFlag
    else if Starts(s, "--config=") then ConfigInline(s[9..])
    else if Starts(s, "-c=") then ConfigInline(s[3..])
    else if s == FULL_ACCESS then FullAccess
    else if s == IGNORE_USER_CONFIG then IgnoreUserConfig
    else if s == IGNORE_RULES then IgnoreRules
    else if s == "-C" || s == "--cd" || s == "--add-dir" || Starts(s, "-C=") || Starts(s, "--cd=") || Starts(s, "--add-dir=")
    then Workdir
    else if s == "-a" || s == "-s" || s == "--approval-policy" || s == "--ask-for-approval" || s == "--full-auto"
            || s == "--sandbox" || Starts(s, "--approval-policy=") || Starts(s, "--ask-for-approval=") || Starts(s, "--sandbox=")
    then Conflict
    else ArgKind.Other
  }

  // ------------------------------------------------------ config assignments

  function Partition(s: string): Option<(string, string)> {
    if s == "" then None
    else if s[0] == '=' then Some(("", s[1..]))
    else match Partition(s[1..])
      case None => None
      case Some((k, v)) => Some(([s[0]] + k, v))
  }

  function Unquote(v: string): string {
    if |v| >= 2 && v[0] == v[|v| - 1] && (v[0] == '"' || v[0] == '\'') then v[1..|v| - 1] else v
  }

  /** `_config_assignment`. */
  function AssignmentOf(s: string): Option<(string, string)> {
    match Partition(s)
    case None => None
    case Some((k, v)) => Some((Strip(k), Unquote(Strip(v))))
  }

  function Quoted(key: string, value: string): string {
    key + "=" + ("\"" + value + "\"")
  }

  lemma {:induction false} PartitionAt(k: string, v: string)
    requires '=' !in k
    ensures Partition(k + "=" + v) == Some((k, v))
    decreases |k|
  {
    var s := k + "=" + v;
    if k == "" {
      assert s[1..] == v;
    } else {
      PartitionAt(k[1..], v);
      assert s[1..] == k[1..] + "=" + v;
      assert k == [k[0]] + k[1..];
    }
  }

  /** A quoted assignment reads back as its key and value, whatever the value contains. */
  lemma QuotedReadsBack(key: string, value: string)
    requires '=' !in key && key != "" && !IsSpace(key[0]) && !IsSpace(key[|key| - 1])
    ensures AssignmentOf(Quoted(key, value)) == Some((key, value))
  {
    var v := "\"" + value + "\"";
    PartitionAt(key, v);
    assert v[1..|v| - 1] == value;
  }

  // ------------------------------------------------------------ token groups

  /** An argument by itself, or a flag with the value after it. */
  datatype Group = Single(arg: string) | Pair(flag: string, value: string)

  /** `-c` takes a value everywhere; `-m` only where models are looked at. */
  predicate TakesValue(arg: string, models: bool) {
    KindOf(arg).ConfigFlag? || (models && KindOf(arg).ModelFlag?)
  }

  function Groups(args: seq<string>, models: bool): seq<Group> {
    if args == [] then []
    else if TakesValue(args[0], models) && |args| >= 2 then [Pair(args[0], args[1])] + Groups(args[2..], models)
    else [Single(args[0])] + Groups(args[1..], models)
  }

  function Words(g: Group): seq<string> {
    match g
    case Single(a) => [a]
    case Pair(f, v) => [f, v]
  }

  function Flatten(gs: seq<Group>): seq<string> {
    if gs == [] then [] else Words(gs[0]) + Flatten(gs[1..])
  }

  predicate GroupOk(g: Group, models: bool) {
    match g
    case Single(a) => !TakesValue(a, models)
    case Pair(f, _) => TakesValue(f, models)
  }

  /** No flag is missing its value. */
  predicate Complete(gs: seq<Group>, models: bool) {
    forall i :: 0 <= i < |gs| ==> GroupOk(gs[i], models)
  }

  lemma Associate(x: seq<string>, y: seq<string>, z: seq<string>)
    ensures x + (y + z) == (x + y) + z
  {
  }

  lemma {:induction false} FlattenConcat(a: seq<Group>, b: seq<Group>)
    ensures Flatten(a + b) == Flatten(a) + Flatten(b)
    decreases |a|
  {
    if a == [] {
      assert a + b == b && Flatten(a) + Flatten(b) == Flatten(b);
    } else {
      FlattenConcat(a[1..], b);
      assert (a + b)[1..] == a[1..] + b && (a + b)[0] == a[0];
      Associate(Words(a[0]), Flatten(a[1..]), Flatten(b));
      hide Words;
    }
  }

  lemma {:induction false} GroupsOfFlatten(gs: seq<Group>, models: bool)
    requires Complete(gs, models)
    ensures Groups(Flatten(gs), models) == gs
    decreases |gs|
  {
    if gs != [] {
      GroupsOfFlatten(gs[1..], models);
      var rest, args := Flatten(gs[1..]), Flatten(gs);
      assert GroupOk(gs[0], models);
      hide TakesValue;
      match gs[0] {
        case Single(a) => assert args[1..] == rest;
        case Pair(f, v) => assert args[2..] == rest;
      }
      assert gs == [gs[0]] + gs[1..];
    }
  }

  // ------------------------------------------------------------ the override

  datatype Override = Override(model: string, effort: string, serviceTier: Option<string>)

  const MODEL_KEY := "model"
  const EFFORT_KEY := "model_reasoning_effort"
  const SERVICE_KEY := "service_tier"

  predicate OverridesKey(o: Override, key: string) {
    key == MODEL_KEY || key == EFFORT_KEY || (o.serviceTier.Some? && key == SERVICE_KEY)
  }

  /** The assignment a group makes, if it makes one. */
  function AssignmentIn(g: Group): Option<(string, string)> {
    match g
    case Pair(f, v) => if KindOf(f).ConfigFlag? then AssignmentOf(v) else None
    case Single(a) => if KindOf(a).ConfigInline? then AssignmentOf(KindOf(a).value) else None
  }

  predicate Overridden(g: Group, o: Override) {
    || (g.Pair? && KindOf(g.flag).ModelFlag?)
    || (g.Single? && KindOf(g.arg).ModelInline?)
    || (AssignmentIn(g).Some? && OverridesKey(o, AssignmentIn(g).value.0))
  }

  function Kept(gs: seq<Group>, o: Override): seq<Group> {
    if gs == [] then []
    else Kept(gs[..|gs| - 1], o) + (if Overridden(gs[|gs| - 1], o) then [] else [gs[|gs| - 1]])
  }

  function TailGroups(o: Override): seq<Group> {
    [Pair("-m", o.model), Pair("-c", Quoted(EFFORT_KEY, o.effort))]
    + (if o.serviceTier.Some? then [Pair("-c", Quoted(SERVICE_KEY, o.serviceTier.value))] else [])
  }

  /** Where a loop stands: the groups read so far, and the rest. */
  ghost predicate ReadTo(args: seq<string>, models: bool, done: seq<Group>, index: nat) {
    index <= |args| && Groups(args, models) == done + Groups(args[index..], models)
  }

  lemma ReadPair(args: seq<string>, models: bool, done: seq<Group>, index: nat)
    requires ReadTo(args, models, done, index) && index + 1 < |args| && TakesValue(args[index], models)
    ensures ReadTo(args, models, done + [Pair(args[index], args[index + 1])], index + 2)
  {
    hide TakesValue;
    var rest := args[index..];
    assert rest[0] == args[index] && rest[1] == args[index + 1] && rest[2..] == args[index + 2..];
    var g := Pair(args[index], args[index + 1]);
    assert done + ([g] + Groups(rest[2..], models)) == done + [g] + Groups(rest[2..], models);
  }

  lemma ReadSingle(args: seq<string>, models: bool, done: seq<Group>, index: nat)
    requires ReadTo(args, models, done, index) && index < |args|
    requires !(TakesValue(args[index], models) && index + 1 < |args|)
    ensures ReadTo(args, models, done + [Single(args[index])], index + 1)
  {
    hide TakesValue;
    var rest := args[index..];
    assert rest[0] == args[index] && rest[1..] == args[index + 1..];
    var g := Single(args[index]);
    assert done + ([g] + Groups(rest[1..], models)) == done + [g] + Groups(rest[1..], models);
  }

  lemma ReadAll(args: seq<string>, models: bool, done: seq<Group>)
    requires ReadTo(args, models, done, |args|)
    ensures Groups(args, models) == done
  {
    assert args[|args|..] == [];
  }

  lemma KeptSnoc(gs: seq<Group>, g: Group, o: Override)
    ensures Kept(gs + [g], o) == Kept(gs, o) + (if Overridden(g, o) then [] else [g])
  {
    hide Overridden;
    assert (gs + [g])[..|gs|] == gs;
  }

  lemma KeptOne(gs: seq<Group>, g: Group, o: Override)
    ensures Flatten(Kept(gs + [g], o)) == Flatten(Kept(gs, o)) + (if Overridden(g, o) then [] else Words(g))
  {
    KeptSnoc(gs, g, o);
    hide Overridden, Kept;
    if Overridden(g, o) {
      assert Kept(gs, o) + [] == Kept(gs, o) && Flatten(Kept(gs, o)) + [] == Flatten(Kept(gs, o));
    } else {
      FlattenConcat(Kept(gs, o), [g]);
      assert [g][1..] == [] && Flatten([g]) == Words(g) + [] == Words(g);
    }
  }

  lemma {:induction false} MissingValue(args: seq<string>, models: bool, done: seq<Group>, index: nat)
    requires ReadTo(args, models, done, index) && index + 1 == |args| && TakesValue(args[index], models)
    ensures !Complete(Groups(args, models), models)
  {
    ReadSingle(args, models, done, index);
    hide TakesValue;
    var all := done + [Single(args[index])];
    ReadAll(args, models, all);
    assert !GroupOk(all[|done|], models);
  }

  /** The groups of an overridden argument vector. */
  function EffectiveGroups(gs: seq<Group>, o: Override): seq<Group> {
    Kept(gs, o) + TailGroups(o)
  }

  /** What overriding makes of an argument vector: None where a flag misses its value. */
  function Rewritten(args: seq<string>, o: Override): Option<seq<string>> {
    if Complete(Groups(args, true), true) then Some(Flatten(EffectiveGroups(Groups(args, true), o))) else None
  }

  /** `effective_codex_args`: None where a flag misses its value. */
  method EffectiveCodexArgs(defaults: seq<string>, o: Option<Override>) returns (r: Option<seq<string>>)
    ensures o.None? ==> r == Some(defaults)
    ensures o.Some? ==> r == Rewritten(defaults, o.value)
  {
    if o.None? { return Some(defaults); }
    hide Kept, Flatten, Groups, TakesValue, Overridden, TailGroups, ReadTo;
    var effective: seq<string> := [];
    var index := 0;
    ghost var done: seq<Group> := [];
    NothingRead(defaults, true, o.value);
    while index < |defaults|
      invariant index <= |defaults| && ReadTo(defaults, true, done, index)
      invariant Complete(done, true)
      invariant effective == Flatten(Kept(done, o.value))
    {
      var arg := defaults[index];
      if TakesValue(arg, true) {
        if index + 1 >= |defaults| {
          MissingValue(defaults, true, done, index);
          return None;
        }
        var value := defaults[index + 1];
        ReadPair(defaults, true, done, index);
        KeptOne(done, Pair(arg, value), o.value);
        if !Overridden(Pair(arg, value), o.value) {
          effective := effective + [arg, value];
        }
        done := done + [Pair(arg, value)];
        index := index + 2;
      } else {
        ReadSingle(defaults, true, done, index);
        KeptOne(done, Single(arg), o.value);
        if !Overridden(Single(arg), o.value) {
          effective := effective + [arg];
        }
        done := done + [Single(arg)];
        index := index + 1;
      }
    }
    ReadAll(defaults, true, done);
    var tail := OverrideArgs(o.value);
    FlattenConcat(Kept(done, o.value), TailGroups(o.value));
    return Some(effective + tail);
  }

  /** The arguments appended for an override. */
  method OverrideArgs(o: Override) returns (tail: seq<string>)
    ensures tail == Flatten(TailGroups(o))
  {
    TailWords(o);
    hide Flatten, TailGroups, Quoted;
    tail := ["-m", o.model, "-c", Quoted(EFFORT_KEY, o.effort)];
    if o.serviceTier.Some? {
      tail := tail + ["-c", Quoted(SERVICE_KEY, o.serviceTier.value)];
    }
  }

  lemma NothingRead(args: seq<string>, models: bool, o: Override)
    ensures ReadTo(args, models, [], 0) && Flatten(Kept([], o)) == [] && Complete([], models)
  {
    assert args[0..] == args;
  }

  lemma TailWords(o: Override)
    ensures Flatten(TailGroups(o)) ==
            var most := ["-m", o.model, "-c", Quoted(EFFORT_KEY, o.effort)];
            if o.serviceTier.Some? then most + ["-c", Quoted(SERVICE_KEY, o.serviceTier.value)] else most
  {
    hide Quoted;
    var a, b := [Pair("-m", o.model)], [Pair("-c", Quoted(EFFORT_KEY, o.effort))];
    assert a[1..] == [] && b[1..] == [];
    FlattenConcat(a, b);
    assert Flatten(a) == ["-m", o.model] && Flatten(b) == ["-c", Quoted(EFFORT_KEY, o.effort)];
    if o.serviceTier.Some? {
      var c := [Pair("-c", Quoted(SERVICE_KEY, o.serviceTier.value))];
      assert c[1..] == [] && Flatten(c) == ["-c", Quoted(SERVICE_KEY, o.serviceTier.value)];
      FlattenConcat(a + b, c);
      assert TailGroups(o) == a + b + c;
    } else {
      assert TailGroups(o) == a + b;
    }
  }

  // ------------------------------------------------------------ the profile

  /** `service_tier` is reported only when present. */
  datatype Profile = Profile(model: Option<string>, effort: Option<string>, serviceTier: Option<string>)

  datatype Reading = Reading(direct: Option<string>, configured: Option<string>, effort: Option<string>, service: Option<string>)

  function ReadGroup(r: Reading, g: Group): Reading {
    if g.Pair? && KindOf(g.flag).ModelFlag? then r.(direct := Some(g.value))
    else if g.Single? && KindOf(g.arg).ModelInline? then r.(direct := Some(KindOf(g.arg).value))
    else match AssignmentIn(g)
      case None => r
      case Some((key, value)) =>
        if key == MODEL_KEY then r.(configured := Some(value))
        else if key == EFFORT_KEY then r.(effort := Some(value))
        else if key == SERVICE_KEY then r.(service := Some(value))
        else r
  }

  /** Later groups win. */
  function ReadingOf(gs: seq<Group>): Reading {
    if gs == [] then Reading(None, None, None, None)
    else ReadGroup(ReadingOf(gs[..|gs| - 1]), gs[|gs| - 1])
  }

  function ProfileOf(gs: seq<Group>): Profile {
    var r := ReadingOf(gs);
    Profile(if r.direct.Some? then r.direct else r.configured, r.effort, r.service)
  }

  lemma ReadingOne(gs: seq<Group>, g: Group)
    ensures ReadingOf(gs + [g]) == ReadGroup(ReadingOf(gs), g)
  {
    hide ReadGroup;
    assert (gs + [g])[..|gs|] == gs;
  }

  /** `executor_profile_from_args`. */
  method ExecutorProfile(args: seq<string>) returns (p: Profile)
    ensures p == ProfileOf(Groups(args, true))
  {
    hide Groups, TakesValue, ReadingOf, ReadGroup, ReadTo;
    var reading := Reading(None, None, None, None);
    var index := 0;
    ghost var done: seq<Group> := [];
    NothingRead(args, true, Override("", "", None));
    assert ReadingOf(done) == reading by { EmptyReading(); }
    while index < |args|
      invariant index <= |args| && ReadTo(args, true, done, index)
      invariant reading == ReadingOf(done)
    {
      var arg := args[index];
      if TakesValue(arg, true) && index + 1 < |args| {
        var g := Pair(arg, args[index + 1]);
        ReadPair(args, true, done, index);
        ReadingOne(done, g);
        reading, done, index := ReadGroup(reading, g), done + [g], index + 2;
      } else {
        var g := Single(arg);
        ReadSingle(args, true, done, index);
        ReadingOne(done, g);
        reading, done, index := ReadGroup(reading, g), done + [g], index + 1;
      }
    }
    ReadAll(args, true, done);
    return Profile(if reading.direct.Some? then reading.direct else reading.configured, reading.effort, reading.service);
  }

  lemma EmptyReading()
    ensures ReadingOf([]) == Reading(None, None, None, None)
  {
  }

  datatype Field = Direct | Configured | Effort | Service

  function Get(r: Reading, f: Field): Option<string> {
    match f
    case Direct => r.direct
    case Configured => r.configured
    case Effort => r.effort
    case Service => r.service
  }

  /** What one group chooses by itself. */
  function Choice(g: Group, f: Field): Option<string> {
    Get(ReadGroup(Reading(None, None, None, None), g), f)
  }

  predicate NoChoice(gs: seq<Group>, f: Field) {
    forall m :: 0 <= m < |gs| ==> Choice(gs[m], f).None?
  }

  /** The group at `n` is the last one that makes a choice. */
  predicate LastChoice(gs: seq<Group>, n: nat, f: Field) {
    n < |gs| && Choice(gs[n], f).Some? && NoChoice(gs[n + 1..], f)
  }

  lemma ReadGroupChoice(r: Reading, g: Group, f: Field)
    ensures Get(ReadGroup(r, g), f) == if Choice(g, f).Some? then Choice(g, f) else Get(r, f)
  {
    hide KindOf, AssignmentIn;
  }

  lemma {:induction false} NothingChosen(gs: seq<Group>, f: Field)
    requires NoChoice(gs, f)
    ensures Get(ReadingOf(gs), f) == None
    decreases |gs|
  {
    hide ReadGroup, Choice;
    if gs == [] {
      EmptyReading();
    } else {
      NothingChosen(gs[..|gs| - 1], f);
      ReadGroupChoice(ReadingOf(gs[..|gs| - 1]), gs[|gs| - 1], f);
    }
  }

  lemma {:induction false} LastIsRead(gs: seq<Group>, n: nat, f: Field)
    requires LastChoice(gs, n, f)
    ensures Get(ReadingOf(gs), f) == Choice(gs[n], f)
    decreases |gs|
  {
    hide ReadGroup, Choice;
    var m := |gs| - 1;
    ReadGroupChoice(ReadingOf(gs[..m]), gs[m], f);
    if n < m {
            var between, rest := gs[..m][n + 1..], gs[n + 1..];
      assert rest[|rest| - 1] == gs[m];
      assert forall i :: 0 <= i < |between| ==> between[i] == rest[i];
      LastIsRead(gs[..m], n, f);
    }
  }

  /** The profile is that of the last flag or assignment of each kind; a model given by flag
      goes before one given by assignment, wherever they stand. */
  lemma ProfileIs(gs: seq<Group>, n: nat)
    ensures LastChoice(gs, n, Direct) ==> ProfileOf(gs).model == Choice(gs[n], Direct)
    ensures NoChoice(gs, Direct) && LastChoice(gs, n, Configured) ==> ProfileOf(gs).model == Choice(gs[n], Configured)
    ensures NoChoice(gs, Direct) && NoChoice(gs, Configured) ==> ProfileOf(gs).model == None
    ensures LastChoice(gs, n, Effort) ==> ProfileOf(gs).effort == Choice(gs[n], Effort)
    ensures NoChoice(gs, Effort) ==> ProfileOf(gs).effort == None
    ensures LastChoice(gs, n, Service) ==> ProfileOf(gs).serviceTier == Choice(gs[n], Service)
    ensures NoChoice(gs, Service) ==> ProfileOf(gs).serviceTier == None
  {
    hide ReadingOf, Choice;
    forall f | LastChoice(gs, n, f) ensures Get(ReadingOf(gs), f) == Choice(gs[n], f) {
      LastIsRead(gs, n, f);
    }
    forall f | NoChoice(gs, f) ensures Get(ReadingOf(gs), f) == None {
      NothingChosen(gs, f);
    }
    assert forall f :: LastChoice(gs, n, f) ==> Choice(gs[n], f).Some?;
  }

  // ---------------------------------------------------------- faithful rewrite

  lemma {:induction false} KeptConcat(a: seq<Group>, b: seq<Group>, o: Override)
    ensures Kept(a + b, o) == Kept(a, o) + Kept(b, o)
    decreases |b|
  {
    hide Overridden;
    if b == [] {
      assert a + b == a && Kept(a, o) + [] == Kept(a, o);
    } else {
      var n := |b| - 1;
      KeptConcat(a, b[..n], o);
      assert (a + b)[..|a| + n] == a + b[..n];
    }
  }

  lemma {:induction false} KeptIsClean(gs: seq<Group>, o: Override)
    ensures forall i :: 0 <= i < |Kept(gs, o)| ==> !Overridden(Kept(gs, o)[i], o) && Kept(gs, o)[i] in gs
    decreases |gs|
  {
    hide Overridden;
    if gs != [] {
      KeptIsClean(gs[..|gs| - 1], o);
    }
  }

  lemma FlagKinds()
    ensures KindOf("-m") == ModelFlag && KindOf("-c") == ConfigFlag
  {
  }

  lemma KeysReadBack(value: string)
    ensures AssignmentOf(Quoted(EFFORT_KEY, value)) == Some((EFFORT_KEY, value))
    ensures AssignmentOf(Quoted(SERVICE_KEY, value)) == Some((SERVICE_KEY, value))
  {
    QuotedReadsBack(EFFORT_KEY, value);
    QuotedReadsBack(SERVICE_KEY, value);
  }

  lemma TailIsOverridden(o: Override)
    ensures Complete(TailGroups(o), true)
    ensures forall i :: 0 <= i < |TailGroups(o)| ==> Overridden(TailGroups(o)[i], o)
  {
    FlagKinds();
    KeysReadBack(o.effort);
    if o.serviceTier.Some? {
      KeysReadBack(o.serviceTier.value);
    }
    hide KindOf, AssignmentOf, Quoted;
  }

  lemma {:induction false} NoneKept(gs: seq<Group>, o: Override)
    requires forall i :: 0 <= i < |gs| ==> Overridden(gs[i], o)
    ensures Kept(gs, o) == []
    decreases |gs|
  {
    hide Overridden;
    if gs != [] {
      NoneKept(gs[..|gs| - 1], o);
    }
  }

  lemma EffectiveComplete(gs: seq<Group>, o: Override)
    requires Complete(gs, true)
    ensures Complete(EffectiveGroups(gs, o), true)
    ensures Groups(Flatten(EffectiveGroups(gs, o)), true) == EffectiveGroups(gs, o)
  {
    KeptIsClean(gs, o);
    TailIsOverridden(o);
    hide Kept, TailGroups, GroupOk, Overridden, Flatten, Groups;
    GroupsOfFlatten(EffectiveGroups(gs, o), true);
  }

  /** The later override concerns every key that the earlier one does. */
  predicate Covers(later: Override, earlier: Override) {
    earlier.serviceTier.Some? ==> later.serviceTier.Some?
  }

  lemma OverriddenByBoth(g: Group, o: Override, later: Override)
    requires Covers(later, o) && Overridden(g, o)
    ensures Overridden(g, later)
  {
    hide KindOf, AssignmentIn;
  }

  lemma {:induction false} KeptAgain(gs: seq<Group>, o: Override, later: Override)
    requires Covers(later, o)
    ensures Kept(Kept(gs, o), later) == Kept(gs, later)
    decreases |gs|
  {
    if gs != [] {
      var n := |gs| - 1;
      var g := gs[n];
      KeptAgain(gs[..n], o, later);
      if Overridden(g, o) {
        OverriddenByBoth(g, o, later);
      }
      hide Overridden, Covers;
      if Overridden(g, o) {
        assert Kept(gs, o) == Kept(gs[..n], o);
      } else {
        KeptSnoc(Kept(gs[..n], o), g, later);
      }
    }
  }

  lemma LaterGroups(gs: seq<Group>, o: Override, later: Override)
    requires Covers(later, o)
    ensures EffectiveGroups(EffectiveGroups(gs, o), later) == EffectiveGroups(gs, later)
  {
    TailIsOverridden(o);
    forall i | 0 <= i < |TailGroups(o)| ensures Overridden(TailGroups(o)[i], later) {
      OverriddenByBoth(TailGroups(o)[i], o, later);
    }
    hide Overridden, TailGroups, Covers;
    KeptConcat(Kept(gs, o), TailGroups(o), later);
    KeptAgain(gs, o, later);
    NoneKept(TailGroups(o), later);
    assert Kept(gs, later) + [] == Kept(gs, later);
  }

  /** The last override wins: rewriting a rewritten argument vector is rewriting the original,
      whenever the later override concerns every key that the earlier one does. */
  lemma LastOverrideWins(args: seq<string>, o: Override, later: Override)
    requires Rewritten(args, o).Some? && Covers(later, o)
    ensures Rewritten(Rewritten(args, o).value, later) == Rewritten(args, later)
  {
    hide Groups, Flatten, Kept, TailGroups;
    EffectiveComplete(Groups(args, true), o);
    LaterGroups(Groups(args, true), o, later);
    hide EffectiveGroups;
  }

  /** In particular, rewriting twice is rewriting once. */
  lemma RewritingIsIdempotent(args: seq<string>, o: Override)
    requires Rewritten(args, o).Some?
    ensures Rewritten(Rewritten(args, o).value, o) == Rewritten(args, o)
  {
    LastOverrideWins(args, o, o);
    hide Rewritten;
  }

  /** A group is dropped exactly when, read alone, it chooses something that the override
      chooses: a model, however written, an effort, or a service tier that the override names.
      So nothing else is lost, and no stale choice stays behind. */
  lemma OverriddenIff(g: Group, o: Override)
    ensures Overridden(g, o) <==>
      || Choice(g, Direct).Some? || Choice(g, Configured).Some? || Choice(g, Effort).Some?
      || (Choice(g, Service).Some? && o.serviceTier.Some?)
  {
    hide KindOf, AssignmentOf;
  }

  /** `part` is what stands at `places` in `whole`, in the same order. */
  predicate PartAt(part: seq<Group>, whole: seq<Group>, places: seq<nat>) {
    && |places| == |part|
    && (forall i, j :: 0 <= i < j < |places| ==> places[i] < places[j])
    && (forall i :: 0 <= i < |places| ==> places[i] < |whole| && part[i] == whole[places[i]])
  }

  lemma PartOneMore(part: seq<Group>, whole: seq<Group>, places: seq<nat>, g: Group)
    requires PartAt(part, whole, places)
    ensures PartAt(part, whole + [g], places)
    ensures PartAt(part + [g], whole + [g], places + [|whole|])
    ensures forall n: nat :: n in places + [|whole|] <==> n in places || n == |whole|
    ensures forall n: nat :: n in places ==> n < |whole|
  {
  }

  /** What is kept of the original is every group that the override does not concern, in the
      original order, `places` being where they stood. */
  lemma {:induction false} KeptIsTheRest(gs: seq<Group>, o: Override) returns (places: seq<nat>)
    ensures PartAt(Kept(gs, o), gs, places)
    ensures forall n: nat :: n < |gs| ==> (n in places <==> !Overridden(gs[n], o))
    decreases |gs|
  {
    hide Overridden, PartAt;
    if gs == [] {
      places := [];
      NoPart();
    } else {
      var last := |gs| - 1;
      places := KeptIsTheRest(gs[..last], o);
      PartOneMore(Kept(gs[..last], o), gs[..last], places, gs[last]);
      assert gs == gs[..last] + [gs[last]];
      if Overridden(gs[last], o) {
        assert Kept(gs[..last], o) + [] == Kept(gs[..last], o);
      } else {
        places := places + [last];
      }
    }
  }

  lemma NoPart()
    ensures PartAt([], [], [])
  {
  }

  lemma StartsWith(s: string, p: string)
    ensures Starts(s, p) ==> s == p + s[|p|..]
    ensures forall v: string :: s == p + v ==> Starts(s, p) && v == s[|p|..]
    ensures Starts(s, p) ==> forall i :: 0 <= i < |p| ==> s[i] == p[i]
  {
  }

  /** A flag with its value in one argument: the two spellings of each, and the whole rest. */
  lemma ModelInlineIff(s: string, v: string)
    ensures KindOf(s) == ModelInline(v) <==> s == "--model=" + v || s == "-m=" + v
  {
    StartsWith(s, "--model=");
    StartsWith(s, "-m=");
    hide Starts;
    if s == "--model=" + v {
      assert s[2] == 'm' && s[1] == '-';
    } else if s == "-m=" + v {
      assert s[1] == 'm';
    }
  }

  lemma ConfigInlineIff(s: string, v: string)
    ensures KindOf(s) == ConfigInline(v) <==> s == "--config=" + v || s == "-c=" + v
  {
    StartsWith(s, "--model=");
    StartsWith(s, "-m=");
    StartsWith(s, "--config=");
    StartsWith(s, "-c=");
    hide Starts;
    if s == "--config=" + v {
      assert s[2] == 'c' && s[1] == '-';
    } else if s == "-c=" + v {
      assert s[1] == 'c';
    }
  }

  function ServiceOf(gs: seq<Group>): Option<string> {
    ReadingOf(gs).service
  }

  /** Only a `service_tier` assignment changes the service tier read. */
  predicate ServiceGroup(g: Group) {
    ReadGroup(Reading(None, None, None, None), g).service.Some?
  }

  lemma ServiceOne(r: Reading, g: Group)
    ensures !ServiceGroup(g) ==> ReadGroup(r, g).service == r.service
    ensures ServiceGroup(g) ==> ReadGroup(r, g).service == ReadGroup(Reading(None, None, None, None), g).service
  {
    hide KindOf, AssignmentIn;
  }

  lemma {:induction false} KeptKeepsService(gs: seq<Group>, o: Override)
    requires o.serviceTier.None?
    ensures ServiceOf(Kept(gs, o)) == ServiceOf(gs)
    decreases |gs|
  {
    if gs != [] {
      var n := |gs| - 1;
      KeptKeepsService(gs[..n], o);
      OverriddenIsNotService(gs[n], o);
      ServiceOne(ReadingOf(gs[..n]), gs[n]);
      ServiceOne(ReadingOf(Kept(gs[..n], o)), gs[n]);
      hide Overridden, ServiceGroup, ReadGroup;
      if Overridden(gs[n], o) {
        assert Kept(gs[..n], o) + [] == Kept(gs[..n], o);
      } else {
        ReadingOne(Kept(gs[..n], o), gs[n]);
      }
    }
  }

  lemma OverriddenIsNotService(g: Group, o: Override)
    requires o.serviceTier.None?
    ensures Overridden(g, o) ==> !ServiceGroup(g)
  {
    hide KindOf, AssignmentOf;
  }

  lemma ReadingOfTail(gs: seq<Group>, o: Override)
    ensures var r := ReadingOf(gs + TailGroups(o));
            && r.direct == Some(o.model) && r.effort == Some(o.effort)
            && r.service == if o.serviceTier.Some? then o.serviceTier else ServiceOf(gs)
  {
    FlagKinds();
    KeysReadBack(o.effort);
    var m, e := Pair("-m", o.model), Pair("-c", Quoted(EFFORT_KEY, o.effort));
    hide KindOf, AssignmentOf, Quoted;
    ReadingOne(gs, m);
    ReadingOne(gs + [m], e);
    if o.serviceTier.Some? {
      KeysReadBack(o.serviceTier.value);
      var s := Pair("-c", Quoted(SERVICE_KEY, o.serviceTier.value));
      ReadingOne(gs + [m] + [e], s);
      assert gs + TailGroups(o) == gs + [m] + [e] + [s];
    } else {
      assert gs + TailGroups(o) == gs + [m] + [e];
    }
  }

  /** The profile read back from the rewritten arguments is the override; a service tier it
      does not name stays the default one. */
  lemma OverrideReadsBack(gs: seq<Group>, o: Override)
    requires Complete(gs, true)
    ensures ProfileOf(Groups(Flatten(EffectiveGroups(gs, o)), true))
            == Profile(Some(o.model), Some(o.effort), if o.serviceTier.Some? then o.serviceTier else ProfileOf(gs).serviceTier)
  {
    EffectiveComplete(gs, o);
    ReadingOfTail(Kept(gs, o), o);
    if o.serviceTier.None? {
      KeptKeepsService(gs, o);
    }
  }
}
