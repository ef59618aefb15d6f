/** `supersede_relation_errors`: the append-only relation "this command supersedes that one". */
module SupersedeGraph {
  import opened IntSets
  import opened Protocol

  type Edges = map<int, int>

  datatype GraphError =
    | BadReplacement
    | ReplacementNotStaged
    | BadTarget
    | MissingTarget(id: int)
    | SelfReference
    | ForwardReference
    | BeyondLatest
    | ConflictingSuperseders(target: int)
    | Cycle

  // --------------------------------------------------------------- relation

  /** The valid relations on file, with the proposed one put in. */
  function Merged(relations: map<int, int>, replacement: int, target: int): Edges {
    (map s | s in relations && s >= 1 && relations[s] >= 1 :: relations[s])
    + (if replacement >= 1 && target >= 1 then map[replacement := target] else map[])
  }

  /** Following the relation n times. */
  function Follow(edges: Edges, c: int, n: nat): Option<int> {
    if n == 0 then Some(c)
    else match Follow(edges, c, n - 1)
      case None => None
      case Some(d) => if d in edges then Some(edges[d]) else None
  }

  ghost predicate OnCycle(edges: Edges, c: int) {
    exists n: nat :: n > 0 && Follow(edges, c, n) == Some(c)
  }

  ghost predicate HasCycle(edges: Edges) {
    exists c :: OnCycle(edges, c)
  }

  predicate Decreasing(edges: Edges) {
    forall s :: s in edges ==> edges[s] < s
  }

  predicate Injective(edges: Edges) {
    forall s, t :: s in edges && t in edges && edges[s] == edges[t] ==> s == t
  }

  lemma {:induction false} FollowShorter(edges: Edges, c: int, m: nat, n: nat)
    requires m < n && Follow(edges, c, n).Some?
    ensures Follow(edges, c, m).Some? && Follow(edges, c, m).value in edges
    decreases n
  {
    if m < n - 1 {
      FollowShorter(edges, c, m, n - 1);
    }
  }

  lemma {:induction false} FollowAdds(edges: Edges, c: int, m: nat, n: nat)
    requires Follow(edges, c, m).Some?
    ensures Follow(edges, c, m + n) == Follow(edges, Follow(edges, c, m).value, n)
    decreases n
  {
    if n > 0 {
      FollowAdds(edges, c, m, n - 1);
    }
  }

  /** On a cycle the relation can be followed for ever. */
  lemma {:induction false} CycleGoesOn(edges: Edges, c: int, n: nat, m: nat)
    requires n > 0 && Follow(edges, c, n) == Some(c)
    ensures Follow(edges, c, m).Some? && Follow(edges, c, m).value in edges
    decreases m
  {
    if m < n {
      FollowShorter(edges, c, m, n);
    } else {
      CycleGoesOn(edges, c, n, m - n);
      FollowAdds(edges, c, n, m - n);
    }
  }

  lemma {:induction false} DecreasingFalls(edges: Edges, c: int, n: nat)
    requires Decreasing(edges) && Follow(edges, c, n).Some?
    ensures Follow(edges, c, n).value <= c - n
    decreases n
  {
    if n > 0 {
      DecreasingFalls(edges, c, n - 1);
    }
  }

  // ------------------------------------------------------------------- walk

  /** The visited-set walk from one start: it ends, and says whether it met a node twice. */
  method Walk(edges: Edges, start: int) returns (cycle: bool)
    ensures cycle ==> HasCycle(edges)
    ensures OnCycle(edges, start) ==> cycle
  {
    var visited: set<int> := {};
    var current := start;
    ghost var steps: nat := 0;
    while current in edges
      invariant Follow(edges, start, steps) == Some(current)
      invariant visited <= edges.Keys
      invariant forall v :: v in visited ==> exists m: nat :: m < steps && Follow(edges, start, m) == Some(v)
      decreases edges.Keys - visited
    {
      if current in visited {
        ghost var m: nat :| m < steps && Follow(edges, start, m) == Some(current);
        FollowAdds(edges, start, m, steps - m);
        assert OnCycle(edges, current);
        return true;
      }
      visited := visited + {current};
      current := edges[current];
      steps := steps + 1;
    }
    if OnCycle(edges, start) {
      ghost var n: nat :| n > 0 && Follow(edges, start, n) == Some(start);
      CycleGoesOn(edges, start, n, steps);
    }
    return false;
  }

  // ----------------------------------------------------------------- errors

  ghost predicate IsTarget(edges: Edges, id: int) {
    exists s :: s in edges && edges[s] == id
  }

  /** What each error means, of the ids given and the relation built from them. */
  ghost predicate Means(e: GraphError, replacement: int, target: int, known: set<int>, edges: Edges, latest: Option<int>) {
    match e
    case BadReplacement => replacement < 1
    case ReplacementNotStaged => replacement >= 1 && replacement !in known
    case BadTarget => target < 1
    case MissingTarget(id) => id >= 1 && id !in known && (id == target || IsTarget(edges, id))
    case SelfReference => exists s :: s in edges && edges[s] == s
    case ForwardReference => exists s :: s in edges && edges[s] > s
    case BeyondLatest => latest.Some? && exists s :: s in edges && s > latest.value
    case ConflictingSuperseders(t) => exists s, u :: s in edges && u in edges && s != u && edges[s] == t && edges[u] == t
    case Cycle => HasCycle(edges)
  }

  method BuildEdges(relations: map<int, int>, replacement: int, target: int) returns (edges: Edges)
    ensures edges == Merged(relations, replacement, target)
  {
    edges := map[];
    var left := relations.Keys;
    while left != {}
      invariant left <= relations.Keys
      invariant forall s :: s in edges <==> s in relations && s !in left && s >= 1 && relations[s] >= 1
      invariant forall s :: s in edges ==> edges[s] == relations[s]
      decreases left
    {
      var s := Take(left);
      left := left - {s};
      if s >= 1 && relations[s] >= 1 {
        edges := edges[s := relations[s]];
      }
    }
    if replacement >= 1 && target >= 1 {
      edges := edges[replacement := target];
    }
    ghost var merged := Merged(relations, replacement, target);
    assert forall s :: s in edges <==> s in merged;
    assert forall s :: s in edges ==> edges[s] == merged[s];
  }

  /** The errors that one edge gives by itself. */
  function EdgeErrors(s: int, t: int, known: set<int>, latest: Option<int>): set<GraphError> {
    (if s == t then {SelfReference} else if t > s then {ForwardReference} else {})
    + (if t !in known then {MissingTarget(t)} else {})
    + (if latest.Some? && s > latest.value then {BeyondLatest} else {})
  }

  ghost predicate EdgeError(e: GraphError, edges: Edges, some: set<int>, known: set<int>, latest: Option<int>) {
    exists s :: s in some && s in edges && e in EdgeErrors(s, edges[s], known, latest)
  }

  function Positive(ids: set<int>): set<int> {
    set i | i in ids && i >= 1
  }

  method SupersedeRelationErrors(
    replacement: int, target: int, existing: set<int>, relations: map<int, int>, latest: Option<int>)
    returns (errors: set<GraphError>)
    ensures forall e :: e in errors <==>
      Means(e, replacement, target, Positive(existing), Merged(relations, replacement, target), latest)
  {
    var known := Positive(existing);
    var own := OwnErrors(replacement, target, known);
    var relation := BuildEdges(relations, replacement, target);
    var perEdge := OneByOne(relation, known, latest);
    var pairs := Conflicts(relation);
    var cyclic := AnyCycle(relation);
    errors := own + perEdge + pairs + (if cyclic then {Cycle} else {});
    forall e ensures e in errors <==> Means(e, replacement, target, known, relation, latest) {
      Together(e, replacement, target, known, relation, latest);
      hide OwnError, EdgeError, Means, HasCycle, ConflictError;
    }
  }

  predicate OwnError(e: GraphError, replacement: int, target: int, known: set<int>) {
    match e
    case BadReplacement => replacement < 1
    case ReplacementNotStaged => replacement >= 1 && replacement !in known
    case BadTarget => target < 1
    case MissingTarget(id) => id == target && target >= 1 && target !in known
    case SelfReference => replacement >= 1 && target >= 1 && replacement == target
    case ForwardReference => replacement >= 1 && target >= 1 && target > replacement
    case _ => false
  }

  /** The errors of the two given ids by themselves. */
  method OwnErrors(replacement: int, target: int, known: set<int>) returns (errors: set<GraphError>)
    ensures forall e :: e in errors <==> OwnError(e, replacement, target, known)
  {
    errors := {};
    if replacement < 1 {
      errors := errors + {BadReplacement};
    } else if replacement !in known {
      errors := errors + {ReplacementNotStaged};
    }
    if target < 1 {
      errors := errors + {BadTarget};
    } else if target !in known {
      errors := errors + {MissingTarget(target)};
    }
    if replacement >= 1 && target >= 1 {
      if replacement == target {
        errors := errors + {SelfReference};
      } else if target > replacement {
        errors := errors + {ForwardReference};
      }
    }
  }

  ghost predicate ConflictError(e: GraphError, edges: Edges) {
    exists s, u :: s in edges && u in edges && s != u && edges[s] == edges[u] && e == ConflictingSuperseders(edges[s])
  }

  lemma Together(e: GraphError, replacement: int, target: int, known: set<int>, edges: Edges, latest: Option<int>)
    requires replacement >= 1 && target >= 1 ==> replacement in edges && edges[replacement] == target
    requires forall s :: s in edges ==> s >= 1 && edges[s] >= 1
    ensures Means(e, replacement, target, known, edges, latest) <==>
      || OwnError(e, replacement, target, known) || EdgeError(e, edges, edges.Keys, known, latest)
      || ConflictError(e, edges) || (e == Cycle && HasCycle(edges))
  {
    EdgeErrorMeans(e, edges, known, latest);
    hide EdgeError, HasCycle;
    if e.MissingTarget? && IsTarget(edges, e.id) {
      var s :| s in edges && edges[s] == e.id;
    }
  }

  method OneByOne(edges: Edges, known: set<int>, latest: Option<int>) returns (errors: set<GraphError>)
    ensures forall e :: e in errors <==> EdgeError(e, edges, edges.Keys, known, latest)
  {
    errors := {};
    var left := edges.Keys;
    while left != {}
      invariant left <= edges.Keys
      invariant forall e :: e in errors <==> EdgeError(e, edges, edges.Keys - left, known, latest)
      decreases left
    {
      var s := Take(left);
      ghost var done := edges.Keys - left;
      left := left - {s};
      assert edges.Keys - left == done + {s};
      errors := errors + EdgeErrors(s, edges[s], known, latest);
    }
    assert edges.Keys - left == edges.Keys;
  }

  /** `relation_targets`: every target named by two different sources. */
  method Conflicts(edges: Edges) returns (errors: set<GraphError>)
    ensures forall e :: e in errors <==> ConflictError(e, edges)
  {
    errors := {};
    var sources: map<int, set<int>> := map[];
    var left := edges.Keys;
    while left != {}
      invariant left <= edges.Keys
      invariant forall t, s :: t in sources ==> (s in sources[t] <==> s in edges && s !in left && edges[s] == t)
      invariant forall s :: s in edges && s !in left ==> edges[s] in sources
      decreases left
    {
      var s := Take(left);
      left := left - {s};
      var t := edges[s];
      sources := sources[t := (if t in sources then sources[t] else {}) + {s}];
    }
    var targets := sources.Keys;
    while targets != {}
      invariant targets <= sources.Keys
      invariant forall e :: e in errors <==>
        e.ConflictingSuperseders? && e.target in sources && e.target !in targets && |sources[e.target]| > 1
      decreases targets
    {
      var t := Take(targets);
      targets := targets - {t};
      if |sources[t]| > 1 {
        errors := errors + {ConflictingSuperseders(t)};
      }
    }
    forall e ensures e in errors <==> ConflictError(e, edges) {
      if e.ConflictingSuperseders? && e.target in sources {
        MoreThanOne(sources[e.target]);
        if e in errors {
          ghost var a, b :| a in sources[e.target] && b in sources[e.target] && a != b;
          assert edges[a] == edges[b];
        }
      }
      if ConflictError(e, edges) {
        ghost var s, u :| s in edges && u in edges && s != u && edges[s] == edges[u]
                          && e == ConflictingSuperseders(edges[s]);
        assert s in sources[e.target] && u in sources[e.target];
      }
    }
  }

  lemma MoreThanOne(s: set<int>)
    ensures |s| > 1 <==> exists a, b :: a in s && b in s && a != b
  {
    if |s| > 1 {
      var a := Pick(s);
      assert s - {a} != {};
      var b := Pick(s - {a});
    }
    if a, b :| a in s && b in s && a != b {
      assert {a, b} <= s;
      assert s == {a, b} + (s - {a, b});
    }
  }

  method AnyCycle(edges: Edges) returns (cyclic: bool)
    ensures cyclic <==> HasCycle(edges)
  {
    var left := edges.Keys;
    while left != {}
      invariant left <= edges.Keys
      invariant forall c :: c in edges && c !in left ==> !OnCycle(edges, c)
      decreases left
    {
      var start := Take(left);
      left := left - {start};
      var found := Walk(edges, start);
      if found { return true; }
    }
    if HasCycle(edges) {
      var c :| OnCycle(edges, c);
      var n: nat :| n > 0 && Follow(edges, c, n) == Some(c);
      CycleGoesOn(edges, c, n, 0);
    }
    return false;
  }

  lemma EdgeErrorMeans(e: GraphError, edges: Edges, known: set<int>, latest: Option<int>)
    ensures EdgeError(e, edges, edges.Keys, known, latest) <==>
      match e
      case SelfReference => exists s :: s in edges && edges[s] == s
      case ForwardReference => exists s :: s in edges && edges[s] > s
      case MissingTarget(id) => id !in known && IsTarget(edges, id)
      case BeyondLatest => latest.Some? && exists s :: s in edges && s > latest.value
      case _ => false
  {
    match e
    case SelfReference =>
      if s :| s in edges && edges[s] == s { assert e in EdgeErrors(s, edges[s], known, latest); }
    case ForwardReference =>
      if s :| s in edges && edges[s] > s { assert e in EdgeErrors(s, edges[s], known, latest); }
    case MissingTarget(id) =>
      if s :| s in edges && edges[s] == id && id !in known { assert e in EdgeErrors(s, edges[s], known, latest); }
    case BeyondLatest =>
      if s :| s in edges && latest.Some? && s > latest.value { assert e in EdgeErrors(s, edges[s], known, latest); }
    case _ =>
  }

  // ------------------------------------------------------------- consequences

  /** A cycle is never the only thing wrong. */
  lemma CycleIsNeverAlone(edges: Edges)
    requires HasCycle(edges)
    ensures exists s :: s in edges && edges[s] >= s
  {
    if Decreasing(edges) {
      var c :| OnCycle(edges, c);
      var n: nat :| n > 0 && Follow(edges, c, n) == Some(c);
      DecreasingFalls(edges, c, n);
    }
  }

  lemma MergedHolds(relations: map<int, int>, replacement: int, target: int)
    ensures var edges := Merged(relations, replacement, target);
            && (replacement >= 1 && target >= 1 ==> replacement in edges && edges[replacement] == target)
            && (forall s :: s in edges ==> s >= 1 && edges[s] >= 1)
  {
  }

  /** No error at all: the relation is injective, goes strictly back in time, stays among the
      known ids, and has no cycle; and only then. */
  lemma NoErrorsIff(replacement: int, target: int, known: set<int>, relations: map<int, int>, latest: Option<int>)
    ensures var edges := Merged(relations, replacement, target);
            (forall e :: !Means(e, replacement, target, known, edges, latest)) <==>
              && replacement >= 1 && target >= 1 && replacement in known
              && Decreasing(edges) && Injective(edges)
              && (forall s :: s in edges ==> edges[s] in known)
              && (latest.Some? ==> forall s :: s in edges ==> s <= latest.value)
  {
    var edges := Merged(relations, replacement, target);
    MergedHolds(relations, replacement, target);
    if forall e :: !Means(e, replacement, target, known, edges, latest) {
      assert !Means(BadReplacement, replacement, target, known, edges, latest);
      assert !Means(ReplacementNotStaged, replacement, target, known, edges, latest);
      assert !Means(BadTarget, replacement, target, known, edges, latest);
      assert !Means(SelfReference, replacement, target, known, edges, latest);
      assert !Means(ForwardReference, replacement, target, known, edges, latest);
      assert !Means(BeyondLatest, replacement, target, known, edges, latest);
      forall s | s in edges ensures edges[s] in known {
        assert !Means(MissingTarget(edges[s]), replacement, target, known, edges, latest);
      }
      forall s, t | s in edges && t in edges && edges[s] == edges[t] ensures s == t {
        assert !Means(ConflictingSuperseders(edges[s]), replacement, target, known, edges, latest);
      }
    } else {
      var e :| Means(e, replacement, target, known, edges, latest);
      if e == Cycle {
        CycleIsNeverAlone(edges);
      } else if e.MissingTarget? && IsTarget(edges, e.id) {
        var s :| s in edges && edges[s] == e.id;
      }
    }
  }

  /** Such a relation is a set of finite chains: following it from any id ends... */
  lemma ChainsEnd(edges: Edges, c: int)
    requires Decreasing(edges) && c >= 1 && forall s :: s in edges ==> s >= 1 && edges[s] >= 1
    ensures Follow(edges, c, c) == None
  {
    if Follow(edges, c, c).Some? {
      DecreasingFalls(edges, c, c);
      FollowShorter(edges, c, c - 1, c);
    }
  }

  /** ...and two chains that meet are one: the later id leads to the earlier one. */
  lemma {:induction false} ChainsAreDisjoint(edges: Edges, a: int, i: nat, b: int, j: nat)
    requires Injective(edges) && Follow(edges, a, i).Some? && Follow(edges, a, i) == Follow(edges, b, j)
    ensures if i >= j then Follow(edges, a, i - j) == Some(b) else Follow(edges, b, j - i) == Some(a)
    decreases i + j
  {
    if i > 0 && j > 0 {
      FollowShorter(edges, a, i - 1, i);
      FollowShorter(edges, b, j - 1, j);
      ChainsAreDisjoint(edges, a, i - 1, b, j - 1);
    }
  }
}
