/** `executor.py`: from full access to Candidate-local permissions, for runs on the bridge's
own source. */
module SelfMaintenance {
  import opened Protocol
  import opened Executor

  const PROFILE := ":workspace"
  const SANDBOX_KEY := "windows.sandbox"
  const APPROVAL_KEY := "approval_policy"
  const PERMISSIONS_KEY := "default_permissions"

  predicate SecurityKey(key: string) {
    || key == "sandbox_mode" || key == APPROVAL_KEY || key == "approvals_reviewer" || key == PERMISSIONS_KEY
    || key == "features.network_proxy" || key == SANDBOX_KEY
    || Starts(key, "sandbox_workspace_write.") || Starts(key, "permissions.")
  }

  /** The security setting a group makes, if it makes one. */
  function SecurityIn(g: Group): Option<(string, string)> {
    match AssignmentIn(g)
    case None => None
    case Some((k, v)) => if SecurityKey(k) then Some((k, v)) else None
  }

  function GroupKind(g: Group): ArgKind {
    match g
    case Single(a) => KindOf(a)
    case Pair(_, _) => ArgKind.Other
  }

  /** Dropped and replaced by the permission profile. */
  predicate Dropped(g: Group) {
    GroupKind(g).IgnoreUserConfig? || GroupKind(g).IgnoreRules? || GroupKind(g).FullAccess? || SecurityIn(g).Some?
  }

  predicate Forbidden(g: Group) {
    GroupKind(g).Workdir? || GroupKind(g).Conflict?
  }

  function Left(gs: seq<Group>): seq<Group> {
    if gs == [] then []
    else Left(gs[..|gs| - 1]) + (if Dropped(gs[|gs| - 1]) then [] else [gs[|gs| - 1]])
  }

  const IGNORES: seq<Group> := [Single(IGNORE_USER_CONFIG), Single(IGNORE_RULES)]

  function Settings(): seq<Group> {
    [Pair("-c", Quoted(SANDBOX_KEY, "elevated")),
     Pair("-c", Quoted(APPROVAL_KEY, "never")),
     Pair("-c", Quoted(PERMISSIONS_KEY, PROFILE))]
  }

  function PermissionGroups(): seq<Group> {
    IGNORES + Settings()
  }

  // ------------------------------------------------------ what validation wants

  function CountOf(gs: seq<Group>, k: ArgKind): nat {
    if gs == [] then 0 else CountOf(gs[..|gs| - 1], k) + (if GroupKind(gs[|gs| - 1]) == k then 1 else 0)
  }

  function Security(gs: seq<Group>): seq<(string, string)> {
    if gs == [] then []
    else Security(gs[..|gs| - 1]) + (if SecurityIn(gs[|gs| - 1]).Some? then [SecurityIn(gs[|gs| - 1]).value] else [])
  }

  predicate ExpectedKey(key: string) {
    key == SANDBOX_KEY || key == APPROVAL_KEY || key == PERMISSIONS_KEY
  }

  function ValuesOf(settings: seq<(string, string)>, key: string): seq<string> {
    if settings == [] then []
    else ValuesOf(settings[..|settings| - 1], key)
         + (if settings[|settings| - 1].0 == key then [settings[|settings| - 1].1] else [])
  }

  predicate NoneForbidden(gs: seq<Group>) {
    forall i :: 0 <= i < |gs| ==> !Forbidden(gs[i])
  }

  predicate OnlyExpected(settings: seq<(string, string)>) {
    forall i :: 0 <= i < |settings| ==> ExpectedKey(settings[i].0)
  }

  /** `validate_self_maintenance_codex_args` accepts. */
  predicate Accepts(args: seq<string>) {
    var gs := Groups(args, false);
    && FULL_ACCESS !in args
    && Complete(gs, false)
    && NoneForbidden(gs)
    && OnlyExpected(Security(gs))
    && CountOf(gs, IgnoreUserConfig) == 1
    && CountOf(gs, IgnoreRules) == 1
    && ValuesOf(Security(gs), SANDBOX_KEY) == ["elevated"]
    && ValuesOf(Security(gs), APPROVAL_KEY) == ["never"]
    && ValuesOf(Security(gs), PERMISSIONS_KEY) == [PROFILE]
  }

  // ------------------------------------------------------------- one group more

  lemma OneMore(gs: seq<Group>, g: Group)
    ensures CountOf(gs + [g], IgnoreUserConfig) == CountOf(gs, IgnoreUserConfig) + if GroupKind(g).IgnoreUserConfig? then 1 else 0
    ensures CountOf(gs + [g], IgnoreRules) == CountOf(gs, IgnoreRules) + if GroupKind(g).IgnoreRules? then 1 else 0
    ensures Security(gs + [g]) == Security(gs) + if SecurityIn(g).Some? then [SecurityIn(g).value] else []
    ensures Left(gs + [g]) == Left(gs) + if Dropped(g) then [] else [g]
  {
    hide GroupKind, SecurityIn, Dropped;
    assert (gs + [g])[..|gs|] == gs;
  }

  lemma OneSetting(settings: seq<(string, string)>, s: (string, string), key: string)
    ensures ValuesOf(settings + [s], key) == ValuesOf(settings, key) + if s.0 == key then [s.1] else []
  {
    assert (settings + [s])[..|settings|] == settings;
  }

  lemma NoSetting(settings: seq<(string, string)>)
    ensures settings + [] == settings
  {
  }

  // ------------------------------------------------------------------ methods

  /** What the validation loop has counted so far. */
  ghost predicate Tallied(done: seq<Group>, ignoreUserConfig: nat, ignoreRules: nat,
                          sandbox: seq<string>, approval: seq<string>, permissions: seq<string>)
  {
    && Complete(done, false) && NoneForbidden(done) && OnlyExpected(Security(done))
    && ignoreUserConfig == CountOf(done, IgnoreUserConfig)
    && ignoreRules == CountOf(done, IgnoreRules)
    && sandbox == ValuesOf(Security(done), SANDBOX_KEY)
    && approval == ValuesOf(Security(done), APPROVAL_KEY)
    && permissions == ValuesOf(Security(done), PERMISSIONS_KEY)
  }

  /** The next group of the arguments, where it is complete. */
  method NextGroup(args: seq<string>, index: nat, ghost done: seq<Group>) returns (g: Option<Group>, next: nat)
    requires index < |args| && ReadTo(args, false, done, index)
    ensures g.None? ==> !Complete(Groups(args, false), false)
    ensures g.Some? ==> index < next <= |args| && ReadTo(args, false, done + [g.value], next) && GroupOk(g.value, false)
  {
    hide Groups, TakesValue, ReadTo;
    if TakesValue(args[index], false) {
      if index + 1 >= |args| {
        MissingValue(args, false, done, index);
        return None, index;
      }
      ReadPair(args, false, done, index);
      return Some(Pair(args[index], args[index + 1])), index + 2;
    }
    ReadSingle(args, false, done, index);
    return Some(Single(args[index])), index + 1;
  }

  lemma Prefix(args: seq<string>, done: seq<Group>, index: nat, i: nat)
    requires ReadTo(args, false, done, index) && i < |done|
    ensures |Groups(args, false)| > i && Groups(args, false)[i] == done[i]
  {
  }

  lemma {:induction false} SecurityConcat(a: seq<Group>, b: seq<Group>)
    ensures Security(a + b) == Security(a) + Security(b)
    decreases |b|
  {
    hide SecurityIn;
    if b == [] {
      assert a + b == a && Security(a) + [] == Security(a);
    } else {
      var n := |b| - 1;
      SecurityConcat(a, b[..n]);
      assert (a + b)[..|a| + n] == a + b[..n];
    }
  }

  function Extended(values: seq<string>, setting: Option<(string, string)>, key: string): seq<string> {
    if setting.Some? && setting.value.0 == key then values + [setting.value.1] else values
  }

  lemma TallyCounts(done: seq<Group>, g: Group)
    ensures CountOf(done + [g], IgnoreUserConfig) == CountOf(done, IgnoreUserConfig) + if GroupKind(g).IgnoreUserConfig? then 1 else 0
    ensures CountOf(done + [g], IgnoreRules) == CountOf(done, IgnoreRules) + if GroupKind(g).IgnoreRules? then 1 else 0
    ensures Security(done + [g]) == Security(done) + if SecurityIn(g).Some? then [SecurityIn(g).value] else []
    ensures forall i :: 0 <= i < |done| ==> (done + [g])[i] == done[i]
  {
    OneMore(done, g);
    hide GroupKind, SecurityIn, Security, CountOf, Left;
  }

  lemma TallyOne(done: seq<Group>, g: Group, user: nat, rules: nat, sandbox: seq<string>, approval: seq<string>, permissions: seq<string>)
    requires Tallied(done, user, rules, sandbox, approval, permissions)
    requires GroupOk(g, false) && !Forbidden(g) && (SecurityIn(g).Some? ==> ExpectedKey(SecurityIn(g).value.0))
    ensures Tallied(done + [g],
                    user + if GroupKind(g).IgnoreUserConfig? then 1 else 0, rules + if GroupKind(g).IgnoreRules? then 1 else 0,
                    Extended(sandbox, SecurityIn(g), SANDBOX_KEY), Extended(approval, SecurityIn(g), APPROVAL_KEY),
                    Extended(permissions, SecurityIn(g), PERMISSIONS_KEY))
  {
    TallyCounts(done, g);
    hide GroupKind, SecurityIn, Security, ExpectedKey, Forbidden, GroupOk, ValuesOf, CountOf;
    if SecurityIn(g).Some? {
      var s := SecurityIn(g).value;
      OneSetting(Security(done), s, SANDBOX_KEY);
      OneSetting(Security(done), s, APPROVAL_KEY);
      OneSetting(Security(done), s, PERMISSIONS_KEY);
    } else {
      NoSetting(Security(done));
    }
  }

  method Validate(args: seq<string>) returns (ok: bool)
    ensures ok <==> Accepts(args)
  {
    if FULL_ACCESS in args { return false; }
    hide Groups, TakesValue, ReadTo, Forbidden, GroupKind, SecurityIn, ExpectedKey, Tallied, GroupOk;
    var index := 0;
    var ignoreUserConfig, ignoreRules := 0, 0;
    var sandbox: seq<string>, approval: seq<string>, permissions: seq<string> := [], [], [];
    ghost var done: seq<Group> := [];
    NothingRead(args, false, Override("", "", None));
    NothingTallied();
    while index < |args|
      invariant index <= |args| && ReadTo(args, false, done, index)
      invariant Tallied(done, ignoreUserConfig, ignoreRules, sandbox, approval, permissions)
      decreases |args| - index
    {
      ghost var before := done;
      var g, next := NextGroup(args, index, done);
      if g.None? { return false; }
      done := done + [g.value];
      if Forbidden(g.value) {
        Prefix(args, done, next, |before|);
        return false;
      }
      var setting := SecurityIn(g.value);
      if setting.Some? && !ExpectedKey(setting.value.0) {
        UnexpectedKept(args, before, g.value, next);
        return false;
      }
      TallyOne(before, g.value, ignoreUserConfig, ignoreRules, sandbox, approval, permissions);
      if GroupKind(g.value).IgnoreUserConfig? { ignoreUserConfig := ignoreUserConfig + 1; }
      if GroupKind(g.value).IgnoreRules? { ignoreRules := ignoreRules + 1; }
      sandbox := Extended(sandbox, setting, SANDBOX_KEY);
      approval := Extended(approval, setting, APPROVAL_KEY);
      permissions := Extended(permissions, setting, PERMISSIONS_KEY);
      index := next;
    }
    ReadAll(args, false, done);
    TallyMeans(done, ignoreUserConfig, ignoreRules, sandbox, approval, permissions);
    return ignoreUserConfig == 1 && ignoreRules == 1
           && sandbox == ["elevated"] && approval == ["never"] && permissions == [PROFILE];
  }

  lemma TallyMeans(done: seq<Group>, user: nat, rules: nat, sandbox: seq<string>, approval: seq<string>, permissions: seq<string>)
    requires Tallied(done, user, rules, sandbox, approval, permissions)
    ensures Complete(done, false) && NoneForbidden(done) && OnlyExpected(Security(done))
    ensures user == CountOf(done, IgnoreUserConfig) && rules == CountOf(done, IgnoreRules)
    ensures sandbox == ValuesOf(Security(done), SANDBOX_KEY)
    ensures approval == ValuesOf(Security(done), APPROVAL_KEY)
    ensures permissions == ValuesOf(Security(done), PERMISSIONS_KEY)
  {
  }

  lemma NothingTallied()
    ensures Tallied([], 0, 0, [], [], [])
  {
  }

  lemma UnexpectedKept(args: seq<string>, done: seq<Group>, g: Group, index: nat)
    requires ReadTo(args, false, done + [g], index) && SecurityIn(g).Some? && !ExpectedKey(SecurityIn(g).value.0)
    ensures !OnlyExpected(Security(Groups(args, false)))
  {
    OneMore(done, g);
    hide SecurityIn, Security, ExpectedKey, Groups;
    SecurityConcat(done + [g], Groups(args[index..], false));
    assert Security(Groups(args, false))[|Security(done)|] == SecurityIn(g).value;
  }

  /** The rewrite raises before its final validation. */
  ghost predicate RefusedEarly(gs: seq<Group>) {
    !Complete(gs, false) || !NoneForbidden(gs) || forall i :: 0 <= i < |gs| ==> !GroupKind(gs[i]).FullAccess?
  }

  /** `self_maintenance_codex_args` without its final validation. */
  method Rewrite(args: seq<string>) returns (r: Option<seq<string>>)
    ensures r.None? <==> RefusedEarly(Groups(args, false))
    ensures r.Some? ==> r.value == Flatten(Left(Groups(args, false)) + PermissionGroups())
  {
    hide Groups, TakesValue, ReadTo, Forbidden, GroupKind, Dropped, Left, Flatten, PermissionGroups, GroupOk;
    var rewritten: seq<string> := [];
    var sawFullAccess := false;
    var index := 0;
    ghost var done: seq<Group> := [];
    NothingRead(args, false, Override("", "", None));
    NothingLeft();
    while index < |args|
      invariant index <= |args| && ReadTo(args, false, done, index)
      invariant Complete(done, false) && NoneForbidden(done)
      invariant sawFullAccess <==> exists i :: 0 <= i < |done| && GroupKind(done[i]).FullAccess?
      invariant rewritten == Flatten(Left(done))
      decreases |args| - index
    {
      ghost var before := done;
      var g, next := NextGroup(args, index, done);
      if g.None? { return None; }
      done := done + [g.value];
      LeftOne(before, g.value);
      if Forbidden(g.value) {
        Prefix(args, done, next, |before|);
        return None;
      }
      if GroupKind(g.value).FullAccess? {
        assert done[|before|] == g.value;
        sawFullAccess := true;
      }
      assert forall i :: 0 <= i < |before| ==> done[i] == before[i];
      if !Dropped(g.value) {
        rewritten := rewritten + Words(g.value);
      }
      index := next;
    }
    ReadAll(args, false, done);
    if !sawFullAccess { return None; }
    FlattenConcat(Left(done), PermissionGroups());
    return Some(rewritten + Flatten(PermissionGroups()));
  }

  lemma NothingLeft()
    ensures Flatten(Left([])) == []
  {
  }

  lemma LeftOne(gs: seq<Group>, g: Group)
    ensures Flatten(Left(gs + [g])) == Flatten(Left(gs)) + if Dropped(g) then [] else Words(g)
  {
    OneMore(gs, g);
    hide Dropped, Left;
    if Dropped(g) {
      assert Left(gs) + [] == Left(gs) && Flatten(Left(gs)) + [] == Flatten(Left(gs));
    } else {
      FlattenConcat(Left(gs), [g]);
      assert [g][1..] == [] && Flatten([g]) == Words(g) + [] == Words(g);
    }
  }

  // ------------------------------------------------------- the final validation

  /** A kept value that is itself the full-access flag: `-c` followed by it. */
  ghost predicate KeepsFullAccess(gs: seq<Group>) {
    exists i :: 0 <= i < |gs| && gs[i].Pair? && gs[i].value == FULL_ACCESS && !Dropped(gs[i])
  }

  lemma {:induction false} LeftIs(gs: seq<Group>)
    ensures forall g :: g in Left(gs) <==> g in gs && !Dropped(g)
    decreases |gs|
  {
    hide Dropped;
    if gs != [] {
      LeftIs(gs[..|gs| - 1]);
      assert gs == gs[..|gs| - 1] + [gs[|gs| - 1]];
    }
  }

  lemma {:induction false} WordsOfFlatten(gs: seq<Group>, w: string)
    ensures w in Flatten(gs) <==> exists i :: 0 <= i < |gs| && w in Words(gs[i])
    decreases |gs|
  {
    hide Words;
    if gs != [] {
      WordsOfFlatten(gs[1..], w);
      assert forall i :: 0 <= i < |gs| - 1 ==> gs[1..][i] == gs[i + 1];
      if i :| 0 <= i < |gs| && w in Words(gs[i]) {
        assert i > 0 ==> w in Words(gs[1..][i - 1]);
      }
    }
  }

  lemma DiffersAt(s: string, p: string, i: nat)
    requires i < |p| && (i >= |s| || s[i] != p[i])
    ensures s != p && !Starts(s, p)
  {
    if i < |s| && |p| <= |s| {
      assert s[..|p|][i] == s[i];
    }
  }

  /** Two dashes and a letter that begins no other recognized argument. */
  lemma NotOthers(s: string)
    requires |s| > 3 && s[0] == '-' && s[1] == '-' && s[2] == 'i'
    ensures KindOf(s) == if s == IGNORE_USER_CONFIG then IgnoreUserConfig
                         else if s == IGNORE_RULES then IgnoreRules else ArgKind.Other
  {
    DiffersAt(s, "-m=", 1);
    DiffersAt(s, "-c=", 1);
    DiffersAt(s, "-C=", 1);
    DiffersAt(s, "--model=", 2);
    DiffersAt(s, "--config=", 2);
    DiffersAt(s, "--cd=", 2);
    DiffersAt(s, "--add-dir=", 2);
    DiffersAt(s, "--approval-policy=", 2);
    DiffersAt(s, "--ask-for-approval=", 2);
    DiffersAt(s, "--sandbox=", 2);
    DiffersAt(s, "--model", 2);
    DiffersAt(s, "--config", 2);
    DiffersAt(s, "--cd", 2);
    DiffersAt(s, "--add-dir", 2);
    DiffersAt(s, "--approval-policy", 2);
    DiffersAt(s, "--ask-for-approval", 2);
    DiffersAt(s, "--sandbox", 2);
    DiffersAt(s, "--full-auto", 2);
    DiffersAt(s, FULL_ACCESS, 2);
    hide Starts;
  }

  lemma FullAccessKind()
    ensures KindOf(FULL_ACCESS) == FullAccess && "-c" != FULL_ACCESS
  {
    DiffersAt(FULL_ACCESS, "-m=", 1);
    DiffersAt(FULL_ACCESS, "-c=", 1);
    DiffersAt(FULL_ACCESS, "--model=", 2);
    DiffersAt(FULL_ACCESS, "--config=", 2);
    DiffersAt(FULL_ACCESS, "--model", 2);
    DiffersAt(FULL_ACCESS, "--config", 2);
    hide Starts;
  }

  lemma IgnoreUserConfigKind()
    ensures KindOf(IGNORE_USER_CONFIG) == IgnoreUserConfig
  {
    NotOthers(IGNORE_USER_CONFIG);
    hide KindOf;
  }

  lemma IgnoreRulesKind()
    ensures KindOf(IGNORE_RULES) == IgnoreRules
  {
    NotOthers(IGNORE_RULES);
    DiffersAt(IGNORE_RULES, IGNORE_USER_CONFIG, 9);
    hide KindOf, Starts;
  }

  lemma KeysDiffer()
    ensures SANDBOX_KEY != APPROVAL_KEY && APPROVAL_KEY != PERMISSIONS_KEY && SANDBOX_KEY != PERMISSIONS_KEY
  {
  }

  lemma SettingKeys()
    ensures AssignmentOf(Quoted(SANDBOX_KEY, "elevated")) == Some((SANDBOX_KEY, "elevated"))
    ensures AssignmentOf(Quoted(APPROVAL_KEY, "never")) == Some((APPROVAL_KEY, "never"))
    ensures AssignmentOf(Quoted(PERMISSIONS_KEY, PROFILE)) == Some((PERMISSIONS_KEY, PROFILE))
  {
    QuotedReadsBack(SANDBOX_KEY, "elevated");
    QuotedReadsBack(APPROVAL_KEY, "never");
    QuotedReadsBack(PERMISSIONS_KEY, PROFILE);
  }

  /** What is left of the original arguments sets nothing that validation looks at. */
  lemma {:induction false} LeftIsQuiet(gs: seq<Group>)
    ensures Security(Left(gs)) == [] && CountOf(Left(gs), IgnoreUserConfig) == 0 && CountOf(Left(gs), IgnoreRules) == 0
    decreases |gs|
  {
    if gs != [] {
      var n := |gs| - 1;
      LeftIsQuiet(gs[..n]);
      OneMore(Left(gs[..n]), gs[n]);
      hide SecurityIn;
      assert Left(gs[..n]) + [] == Left(gs[..n]);
      NoSetting([]);
    }
  }

  lemma IgnoresTally(gs: seq<Group>)
    requires Tallied(gs, 0, 0, [], [], [])
    ensures Tallied(gs + [IGNORES[0]] + [IGNORES[1]], 1, 1, [], [], [])
  {
    IgnoreUserConfigKind();
    IgnoreRulesKind();
    hide KindOf, Tallied;
    TallyOne(gs, IGNORES[0], 0, 0, [], [], []);
    TallyOne(gs + [IGNORES[0]], IGNORES[1], 1, 0, [], [], []);
  }

  lemma OneValue(v: string)
    ensures [] + [v] == [v]
  {
  }

  lemma SettingsTally(gs: seq<Group>)
    requires Tallied(gs, 1, 1, [], [], [])
    ensures var s := Settings();
            Tallied(gs + [s[0]] + [s[1]] + [s[2]], 1, 1, ["elevated"], ["never"], [PROFILE])
  {
    FlagKinds();
    SettingGroups();
    KeysDiffer();
    var s := Settings();
    hide KindOf, Tallied, SecurityIn;
    OneValue("elevated");
    OneValue("never");
    OneValue(PROFILE);
    TallyOne(gs, s[0], 1, 1, [], [], []);
    TallyOne(gs + [s[0]], s[1], 1, 1, ["elevated"], [], []);
    TallyOne(gs + [s[0]] + [s[1]], s[2], 1, 1, ["elevated"], ["never"], []);
  }

  /** The permission profile is exactly what validation asks for. */
  lemma ProfileTallies(gs: seq<Group>)
    requires Complete(gs, false) && NoneForbidden(gs)
    requires Security(gs) == [] && CountOf(gs, IgnoreUserConfig) == 0 && CountOf(gs, IgnoreRules) == 0
    ensures Tallied(gs + PermissionGroups(), 1, 1, ["elevated"], ["never"], [PROFILE])
  {
    NoValues();
    assert Tallied(gs, 0, 0, [], [], []);
    hide Tallied;
    IgnoresTally(gs);
    SettingsTally(gs + [IGNORES[0]] + [IGNORES[1]]);
    var s := Settings();
    assert PermissionGroups() == [IGNORES[0]] + [IGNORES[1]] + [s[0]] + [s[1]] + [s[2]];
    assert gs + PermissionGroups() == gs + [IGNORES[0]] + [IGNORES[1]] + [s[0]] + [s[1]] + [s[2]];
  }

  lemma NoValues()
    ensures ValuesOf([], SANDBOX_KEY) == [] && ValuesOf([], APPROVAL_KEY) == [] && ValuesOf([], PERMISSIONS_KEY) == []
  {
  }

  lemma SettingGroups()
    ensures SecurityIn(Settings()[0]) == Some((SANDBOX_KEY, "elevated"))
    ensures SecurityIn(Settings()[1]) == Some((APPROVAL_KEY, "never"))
    ensures SecurityIn(Settings()[2]) == Some((PERMISSIONS_KEY, PROFILE))
  {
    FlagKinds();
    SettingKeys();
    hide KindOf, AssignmentOf, Quoted;
  }

  /** After an accepted rewrite the final validation can only fail on a `-c` value that is the
      full-access flag itself. */
  lemma FinalValidation(gs: seq<Group>)
    requires !RefusedEarly(gs)
    ensures Accepts(Flatten(Left(gs) + PermissionGroups())) <==> !KeepsFullAccess(gs)
  {
    var all := Left(gs) + PermissionGroups();
    LeftIs(gs);
    LeftIsQuiet(gs);
    LeftStaysOk(gs);
    ProfileTallies(Left(gs));
    TallyMeans(all, 1, 1, ["elevated"], ["never"], [PROFILE]);
    GroupsOfFlatten(all, false);
    FullAccessLeft(gs);
    hide Tallied, Flatten, PermissionGroups, Left, Complete, NoneForbidden, OnlyExpected, Security, KeepsFullAccess;
  }

  lemma LeftStaysOk(gs: seq<Group>)
    requires Complete(gs, false) && NoneForbidden(gs)
    ensures Complete(Left(gs), false) && NoneForbidden(Left(gs))
  {
    LeftIs(gs);
    hide GroupOk, Forbidden, Dropped;
    forall i | 0 <= i < |Left(gs)| ensures GroupOk(Left(gs)[i], false) && !Forbidden(Left(gs)[i]) {
      assert Left(gs)[i] in gs;
    }
  }

  lemma FullAccessLeft(gs: seq<Group>)
    requires Complete(gs, false)
    ensures FULL_ACCESS in Flatten(Left(gs) + PermissionGroups()) <==> KeepsFullAccess(gs)
  {
    FullAccessKind();
    LeftIs(gs);
    FlattenConcat(Left(gs), PermissionGroups());
    WordsOfFlatten(Left(gs), FULL_ACCESS);
    ProfileWords();
    hide Flatten, Left, PermissionGroups, Complete;
    if FULL_ACCESS in Flatten(Left(gs)) {
      var i :| 0 <= i < |Left(gs)| && FULL_ACCESS in Words(Left(gs)[i]);
      var g := Left(gs)[i];
      assert g in gs && !Dropped(g);
      FullAccessWord(gs, g);
    }
    if KeepsFullAccess(gs) {
      var i :| 0 <= i < |gs| && gs[i].Pair? && gs[i].value == FULL_ACCESS && !Dropped(gs[i]);
      assert gs[i] in Left(gs);
      assert FULL_ACCESS in Words(gs[i]);
    }
  }

  lemma FullAccessWord(gs: seq<Group>, g: Group)
    requires Complete(gs, false) && g in gs && !Dropped(g) && FULL_ACCESS in Words(g)
    ensures KeepsFullAccess(gs)
  {
    FullAccessKind();
    FlagIsNotFullAccess(g);
    hide KindOf;
  }

  lemma FlagIsNotFullAccess(g: Group)
    ensures g.Pair? && GroupOk(g, false) ==> g.flag != FULL_ACCESS
  {
    FullAccessKind();
    hide KindOf;
  }

  lemma ProfileWords()
    ensures FULL_ACCESS !in Flatten(PermissionGroups())
  {
    var gs := PermissionGroups();
    WordsOfFlatten(gs, FULL_ACCESS);
    forall i | 0 <= i < |gs| ensures FULL_ACCESS !in Words(gs[i]) {
    }
  }

  // ------------------------------------------------------ what is accepted

  lemma {:induction false} SecurityHas(gs: seq<Group>, i: nat)
    requires i < |gs| && SecurityIn(gs[i]).Some?
    ensures SecurityIn(gs[i]).value in Security(gs)
    decreases |gs|
  {
    hide SecurityIn;
    var n := |gs| - 1;
    if i < n {
      SecurityHas(gs[..n], i);
    }
  }

  lemma {:induction false} ValuesHave(settings: seq<(string, string)>, i: nat)
    requires i < |settings|
    ensures settings[i].1 in ValuesOf(settings, settings[i].0)
    decreases |settings|
  {
    var n := |settings| - 1;
    if i < n {
      ValuesHave(settings[..n], i);
    }
  }

  lemma AcceptedIsExpected(args: seq<string>, i: nat, key: string, value: string)
    requires Accepts(args) && i < |Groups(args, false)| && SecurityIn(Groups(args, false)[i]) == Some((key, value))
    ensures ExpectedKey(key) && value in ValuesOf(Security(Groups(args, false)), key)
  {
    var gs := Groups(args, false);
    hide Groups, SecurityIn, Security, CountOf, Complete, NoneForbidden, ExpectedKey, ValuesOf;
    SecurityHas(gs, i);
    var s := Security(gs);
    var j :| 0 <= j < |s| && s[j] == (key, value);
    ValuesHave(s, j);
    assert ExpectedKey(s[j].0);
  }

  lemma ExpectedIsNoOther(key: string, rest: string)
    requires ExpectedKey(key)
    ensures key != "sandbox_mode" && key != "approvals_reviewer" && key != "features.network_proxy"
    ensures key != "sandbox_workspace_write." + rest && key != "permissions." + rest
  {
    assert ("sandbox_workspace_write." + rest)[0] == 's' && ("permissions." + rest)[0] == 'p';
    assert key[0] == 'w' || key[0] == 'a' || key[0] == 'd';
    DiffersAt(APPROVAL_KEY, "approvals_reviewer", 8);
    hide Starts;
  }

  lemma SecurityKeys(key: string, rest: string)
    requires key == "sandbox_mode" || key == "approvals_reviewer" || key == "features.network_proxy"
          || key == "sandbox_workspace_write." + rest || key == "permissions." + rest
          || key == "windows.sandbox" || key == "approval_policy" || key == "default_permissions"
    ensures SecurityKey(key)
  {
    StartsWith(key, "sandbox_workspace_write.");
    StartsWith(key, "permissions.");
    hide Starts;
  }

  lemma ExpectedValue(args: seq<string>, key: string, value: string)
    requires Accepts(args) && value in ValuesOf(Security(Groups(args, false)), key)
    ensures key == SANDBOX_KEY ==> value == "elevated"
    ensures key == APPROVAL_KEY ==> value == "never"
    ensures key == PERMISSIONS_KEY ==> value == PROFILE
  {
    hide Groups, Security, CountOf, Complete, NoneForbidden, OnlyExpected, ValuesOf;
  }

  /** Arguments that validation accepts hold no other sandbox, reviewer, network or permission
      setting, and the three settings of the profile with no other value. */
  lemma AcceptedSetsOnly(args: seq<string>, i: nat, key: string, value: string, rest: string)
    requires Accepts(args) && i < |Groups(args, false)| && AssignmentIn(Groups(args, false)[i]) == Some((key, value))
    ensures key != "sandbox_mode" && key != "approvals_reviewer" && key != "features.network_proxy"
    ensures key != "sandbox_workspace_write." + rest && key != "permissions." + rest
    ensures key == "windows.sandbox" ==> value == "elevated"
    ensures key == "approval_policy" ==> value == "never"
    ensures key == "default_permissions" ==> value == ":workspace"
  {
    hide Groups, AssignmentIn, SecurityKey, ExpectedKey, Accepts, ValuesOf, Security;
    if SecurityKey(key) {
      AcceptedIsExpected(args, i, key, value);
      ExpectedIsNoOther(key, rest);
      ExpectedValue(args, key, value);
    } else if key == "sandbox_mode" || key == "approvals_reviewer" || key == "features.network_proxy"
      || key == "sandbox_workspace_write." + rest || key == "permissions." + rest
      || key == "windows.sandbox" || key == "approval_policy" || key == "default_permissions"
    {
      SecurityKeys(key, rest);
    }
  }

  /** The rewrite drops exactly the groups that validation would count or refuse by themselves. */
  lemma DroppedIff(g: Group)
    ensures Dropped(g) <==>
      || CountOf([g], IgnoreUserConfig) > 0 || CountOf([g], IgnoreRules) > 0 || CountOf([g], FullAccess) > 0
      || Security([g]) != []
  {
    OneMore([], g);
    assert [] + [g] == [g] && [g][..0] == [];
    assert CountOf([g], FullAccess) == CountOf([], FullAccess) + if GroupKind(g) == FullAccess then 1 else 0;
    hide GroupKind, SecurityIn;
  }

  /** What is left is the rest, in the original order, `places` being where it stood. */
  lemma {:induction false} LeftIsTheRest(gs: seq<Group>) returns (places: seq<nat>)
    ensures PartAt(Left(gs), gs, places)
    ensures forall n: nat :: n < |gs| ==> (n in places <==> !Dropped(gs[n]))
    decreases |gs|
  {
    hide Dropped, PartAt;
    if gs == [] {
      places := [];
      NoPart();
    } else {
      var last := |gs| - 1;
      places := LeftIsTheRest(gs[..last]);
      PartOneMore(Left(gs[..last]), gs[..last], places, gs[last]);
      assert gs == gs[..last] + [gs[last]];
      if Dropped(gs[last]) {
        assert Left(gs[..last]) + [] == Left(gs[..last]);
      } else {
        places := places + [last];
      }
    }
  }

  /** `self_maintenance_codex_args`. */
  method SelfMaintenanceArgs(args: seq<string>) returns (r: Option<seq<string>>)
    ensures r.None? <==> RefusedEarly(Groups(args, false)) || KeepsFullAccess(Groups(args, false))
    ensures r.Some? ==> r.value == Flatten(Left(Groups(args, false)) + PermissionGroups()) && Accepts(r.value)
  {
    var rewritten := Rewrite(args);
    if rewritten.None? { return None; }
    FinalValidation(Groups(args, false));
    hide *;
    var ok := Validate(rewritten.value);
    return if ok then rewritten else None;
  }

  // ------------------------------------------------------ the profile survives

  /** What the validator of overrides promises of a model name: it is no option. */
  predicate PlainName(model: string) {
    model != "" && model[0] != '-'
  }

  lemma PlainIsOther(s: string)
    requires PlainName(s)
    ensures KindOf(s) == ArgKind.Other
  {
    DiffersAt(s, "-m=", 0);
    DiffersAt(s, "-c=", 0);
    DiffersAt(s, "-C=", 0);
    DiffersAt(s, "--model=", 0);
    DiffersAt(s, "--config=", 0);
    DiffersAt(s, "--cd=", 0);
    DiffersAt(s, "--add-dir=", 0);
    DiffersAt(s, "--approval-policy=", 0);
    DiffersAt(s, "--ask-for-approval=", 0);
    DiffersAt(s, "--sandbox=", 0);
    hide Starts;
  }

  /** The override's own groups, as the rewrite sees them: `-m` and its value apart. */
  function Apart(o: Override): seq<Group> {
    [Single("-m"), Single(o.model)] + TailGroups(o)[1..]
  }

  lemma ApartWords(o: Override)
    ensures Flatten(Apart(o)) == Flatten(TailGroups(o))
  {
    var rest := TailGroups(o)[1..];
    hide Quoted;
    var both := [Single("-m"), Single(o.model)];
    FlattenConcat(both, rest);
    assert both[1..] == [Single(o.model)] && both[1..][1..] == [];
    assert Flatten(both) == ["-m"] + ([o.model] + []);
    assert Flatten(TailGroups(o)) == ["-m", o.model] + Flatten(rest);
  }

  lemma ApartStays(o: Override)
    requires PlainName(o.model)
    ensures forall i :: 0 <= i < |Apart(o)| ==> !Dropped(Apart(o)[i]) && GroupOk(Apart(o)[i], false)
  {
    FlagKinds();
    PlainIsOther(o.model);
    KeysReadBack(o.effort);
    NotSecurity();
    if o.serviceTier.Some? {
      KeysReadBack(o.serviceTier.value);
    }
    hide KindOf, AssignmentOf, Quoted, SecurityKey;
  }

  lemma NotSecurity()
    ensures !SecurityKey(EFFORT_KEY) && !SecurityKey(SERVICE_KEY)
  {
    DiffersAt(EFFORT_KEY, "sandbox_workspace_write.", 0);
    DiffersAt(EFFORT_KEY, "permissions.", 0);
    DiffersAt(SERVICE_KEY, "sandbox_workspace_write.", 1);
    DiffersAt(SERVICE_KEY, "permissions.", 0);
    DiffersAt(SERVICE_KEY, "sandbox_mode", 1);
    hide Starts;
  }

  lemma {:induction false} LeftConcat(a: seq<Group>, b: seq<Group>)
    requires forall i :: 0 <= i < |b| ==> !Dropped(b[i])
    ensures Left(a + b) == Left(a) + b
    decreases |b|
  {
    hide Dropped;
    if b == [] {
      assert a + b == a && Left(a) + [] == Left(a);
    } else {
      var n := |b| - 1;
      LeftConcat(a, b[..n]);
      assert (a + b)[..|a| + n] == a + b[..n];
      assert b == b[..n] + [b[n]];
    }
  }

  lemma KeptOkApart(gs: seq<Group>, o: Override)
    requires Complete(gs, true) && PlainName(o.model)
    ensures Complete(Kept(gs, o) + Apart(o), false)
  {
    KeptIsClean(gs, o);
    ApartStays(o);
    hide KindOf, AssignmentIn, Kept, Apart;
    forall i | 0 <= i < |Kept(gs, o)| ensures GroupOk(Kept(gs, o)[i], false) {
      assert GroupOk(Kept(gs, o)[i], true);
    }
  }

  /** The rewritten arguments, read again with models in view. */
  lemma RewrittenGroups(gs: seq<Group>, o: Override)
    requires Complete(gs, true) && PlainName(o.model)
    ensures var args := Flatten(EffectiveGroups(gs, o));
            Groups(Flatten(Left(Groups(args, false)) + PermissionGroups()), true)
            == Left(Kept(gs, o)) + TailGroups(o) + PermissionGroups()
  {
    var kept := Kept(gs, o);
    KeptOkApart(gs, o);
    ApartStays(o);
    ApartWords(o);
    hide Dropped, Kept, TailGroups, PermissionGroups, Apart, GroupOk, Flatten, Groups, Left;
    FlattenConcat(kept, Apart(o));
    FlattenConcat(kept, TailGroups(o));
    GroupsOfFlatten(kept + Apart(o), false);
    LeftConcat(kept, Apart(o));
    FlattenConcat(Left(kept) + Apart(o), PermissionGroups());
    FlattenConcat(Left(kept), Apart(o));
    FlattenConcat(Left(kept), TailGroups(o));
    FlattenConcat(Left(kept) + TailGroups(o), PermissionGroups());
    AllComplete(gs, o);
    GroupsOfFlatten(Left(kept) + TailGroups(o) + PermissionGroups(), true);
  }

  lemma AllComplete(gs: seq<Group>, o: Override)
    requires Complete(gs, true)
    ensures Complete(Left(Kept(gs, o)) + TailGroups(o) + PermissionGroups(), true)
  {
    KeptIsClean(gs, o);
    LeftIs(Kept(gs, o));
    TailIsOverridden(o);
    PermissionsComplete();
    hide GroupOk, Overridden, Dropped, Kept, Left, TailGroups, PermissionGroups;
    forall g | g in Left(Kept(gs, o)) ensures GroupOk(g, true) {
      assert g in Kept(gs, o);
    }
  }

  lemma PermissionsComplete()
    ensures Complete(PermissionGroups(), true)
  {
    FlagKinds();
    IgnoreUserConfigKind();
    IgnoreRulesKind();
    hide KindOf, Quoted;
  }

  lemma DroppedIsNotService(g: Group)
    ensures Dropped(g) ==> !ServiceGroup(g)
  {
    NotSecurity();
    hide KindOf, AssignmentOf, SecurityKey;
  }

  lemma {:induction false} LeftKeepsService(gs: seq<Group>)
    ensures ServiceOf(Left(gs)) == ServiceOf(gs)
    decreases |gs|
  {
    if gs != [] {
      var n := |gs| - 1;
      LeftKeepsService(gs[..n]);
      DroppedIsNotService(gs[n]);
      ServiceOne(ReadingOf(gs[..n]), gs[n]);
      ServiceOne(ReadingOf(Left(gs[..n])), gs[n]);
      hide Dropped, ServiceGroup, ReadGroup;
      if Dropped(gs[n]) {
        assert Left(gs[..n]) + [] == Left(gs[..n]);
      } else {
        ReadingOne(Left(gs[..n]), gs[n]);
      }
    }
  }

  ghost predicate Quiet(g: Group) {
    forall r: Reading :: ReadGroup(r, g) == r
  }

  lemma {:induction false} QuietReads(gs: seq<Group>, quiet: seq<Group>)
    requires forall i :: 0 <= i < |quiet| ==> Quiet(quiet[i])
    ensures ReadingOf(gs + quiet) == ReadingOf(gs)
    decreases |quiet|
  {
    hide ReadGroup, ReadingOf;
    if quiet == [] {
      assert gs + quiet == gs;
    } else {
      var n := |quiet| - 1;
      QuietReads(gs, quiet[..n]);
      ReadingOne(gs + quiet[..n], quiet[n]);
      assert gs + quiet == gs + quiet[..n] + [quiet[n]];
    }
  }

  /** The permission profile says nothing about model, effort or service tier. */
  lemma PermissionsAreQuiet()
    ensures forall i :: 0 <= i < |PermissionGroups()| ==> Quiet(PermissionGroups()[i])
  {
    FlagKinds();
    IgnoreUserConfigKind();
    IgnoreRulesKind();
    SettingKeys();
    hide KindOf, AssignmentOf, Quoted;
  }

  /** The rewrite keeps the model, the effort and the service tier that the run was given. */
  lemma ProfileSurvives(gs: seq<Group>, o: Override)
    requires Complete(gs, true) && PlainName(o.model)
    ensures var args := Flatten(EffectiveGroups(gs, o));
            ProfileOf(Groups(Flatten(Left(Groups(args, false)) + PermissionGroups()), true)) == ProfileOf(Groups(args, true))
  {
    RewrittenGroups(gs, o);
    EffectiveComplete(gs, o);
    ReadingOfTail(Kept(gs, o), o);
    ReadingOfTail(Left(Kept(gs, o)), o);
    LeftKeepsService(Kept(gs, o));
    PermissionsAreQuiet();
    QuietReads(Left(Kept(gs, o)) + TailGroups(o), PermissionGroups());
    hide ReadingOf, Groups, Left, Kept, TailGroups, PermissionGroups, Flatten;
  }
}
