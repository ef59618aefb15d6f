/** `choose_focus`: hourly rotation over the ring of owner-selected projects. */
module Rotation {
  import opened Protocol

  type ProjectId = nat

  /** A portfolio entry; a missing or ill-typed field is None. */
  datatype Item = Item(id: Option<ProjectId>, selected: Option<bool>, rank: Option<nat>, paused: Option<bool>)

  datatype Refusal =
    | PortfolioTooLarge
    | InvalidIdentifier
    | DuplicateProject
    | InvalidOwnerSelection
    | InvalidInteger
    | EligibleOutsideRing
    | PreemptionNotEligible

  datatype Mode = OrdinaryRotation | CallerJustifiedPreemption

  datatype Plan = Plan(ring: seq<ProjectId>, anchor: Option<nat>, focus: Option<ProjectId>, mode: Mode,
                       eligible: seq<ProjectId>, deferred: seq<ProjectId>)

  datatype Choice = Chosen(plan: Plan) | RefusedBecause(reason: Refusal)

  datatype Row = Row(rank: nat, id: ProjectId, paused: bool)

  const MAX_PORTFOLIO := 512

  // -------------------------------------------------------------------- ring

  predicate RowBefore(a: Row, b: Row) {
    a.rank < b.rank || (a.rank == b.rank && a.id < b.id)
  }

  predicate InOrder(rows: seq<Row>) {
    forall i, j :: 0 <= i < j < |rows| ==> RowBefore(rows[i], rows[j])
  }

  function Ids(rows: seq<Row>): (r: seq<ProjectId>)
    ensures |r| == |rows| && forall i :: 0 <= i < |r| ==> r[i] == rows[i].id
  {
    seq(|rows|, i requires 0 <= i < |rows| => rows[i].id)
  }

  method InsertRow(row: Row, rows: seq<Row>) returns (out: seq<Row>)
    requires InOrder(rows) && forall r :: r in rows ==> r.id != row.id
    ensures InOrder(out) && |out| == |rows| + 1 && forall r :: r in out <==> r == row || r in rows
  {
    var i := 0;
    while i < |rows| && RowBefore(rows[i], row)
      invariant 0 <= i <= |rows|
      invariant forall j :: 0 <= j < i ==> RowBefore(rows[j], row)
    {
      i := i + 1;
    }
    out := rows[..i] + [row] + rows[i..];
    PlacedInOrder(rows, row, i);
    PlacedKeeps(rows, row, i);
  }

  lemma PlacedInOrder(rows: seq<Row>, row: Row, i: nat)
    requires InOrder(rows) && i <= |rows| && forall r :: r in rows ==> r.id != row.id
    requires forall j :: 0 <= j < i ==> RowBefore(rows[j], row)
    requires i < |rows| ==> !RowBefore(rows[i], row)
    ensures InOrder(rows[..i] + [row] + rows[i..])
  {
    forall j | i <= j < |rows| ensures RowBefore(row, rows[j]) {
      assert rows[i] in rows;
      assert j > i ==> RowBefore(rows[i], rows[j]);
    }
  }

  lemma PlacedKeeps(rows: seq<Row>, row: Row, i: nat)
    requires i <= |rows|
    ensures forall r :: r in rows[..i] + [row] + rows[i..] <==> r == row || r in rows
  {
    var out := rows[..i] + [row] + rows[i..];
    assert rows == rows[..i] + rows[i..];
    assert forall r :: r in out <==> r in rows[..i] || r in [row] || r in rows[i..];
  }

  /** The validated selection, in owner order. */
  ghost predicate IsSelection(rows: seq<Row>, items: seq<Item>) {
    && InOrder(rows)
    && (forall row :: row in rows <==>
          exists i :: 0 <= i < |items| && items[i].selected == Some(true)
                      && items[i].id == Some(row.id) && items[i].rank == Some(row.rank) && items[i].paused == Some(row.paused))
  }

  ghost predicate ItemsOk(items: seq<Item>) {
    && (forall i :: 0 <= i < |items| ==>
          items[i].id.Some? && items[i].selected.Some? && items[i].paused.Some?
          && (items[i].selected.value ==> items[i].rank.Some?))
    && (forall i, j :: 0 <= i < j < |items| ==> items[i].id != items[j].id)
  }

  function RowOf(item: Item): Row
    requires item.id.Some? && item.rank.Some? && item.paused.Some?
  {
    Row(item.rank.value, item.id.value, item.paused.value)
  }

  /** The first entry that is refused, and why; what is looked at first decides. */
  ghost predicate FirstBad(items: seq<Item>, n: nat, reason: Refusal) {
    && n < |items| && ItemsOk(items[..n])
    && var item := items[n];
    match reason
    case InvalidIdentifier => item.id.None?
    case DuplicateProject => item.id.Some? && exists i :: 0 <= i < n && items[i].id == item.id
    case InvalidOwnerSelection =>
      && item.id.Some? && (forall i :: 0 <= i < n ==> items[i].id != item.id)
      && (item.selected.None? || item.paused.None?)
    case InvalidInteger =>
      && item.id.Some? && (forall i :: 0 <= i < n ==> items[i].id != item.id)
      && item.selected == Some(true) && item.paused.Some? && item.rank.None?
    case _ => false
  }

  lemma SelectionGrows(rows: seq<Row>, items: seq<Item>, item: Item, more: seq<Row>)
    requires IsSelection(rows, items) && item.id.Some? && item.paused.Some? && item.selected.Some?
    requires item.selected.value ==>
      item.rank.Some? && InOrder(more) && forall r :: r in more <==> r == RowOf(item) || r in rows
    requires !item.selected.value ==> more == rows
    ensures IsSelection(more, items + [item])
  {
    hide InOrder;
    var all := items + [item];
    forall row ensures row in more <==>
        exists i :: 0 <= i < |all| && all[i].selected == Some(true)
                    && all[i].id == Some(row.id) && all[i].rank == Some(row.rank) && all[i].paused == Some(row.paused)
    {
      if i :| 0 <= i < |all| && all[i].selected == Some(true)
              && all[i].id == Some(row.id) && all[i].rank == Some(row.rank) && all[i].paused == Some(row.paused)
      {
        assert i < |items| ==> all[i] == items[i];
      }
      if row in rows {
        var i :| 0 <= i < |items| && items[i].selected == Some(true)
                 && items[i].id == Some(row.id) && items[i].rank == Some(row.rank) && items[i].paused == Some(row.paused);
        assert all[i] == items[i];
      }
      assert all[|items|] == item;
    }
  }

  lemma ItemsOkGrows(items: seq<Item>, n: nat)
    requires n < |items| && ItemsOk(items[..n])
    requires items[n].id.Some? && items[n].selected.Some? && items[n].paused.Some? && (items[n].selected.value ==> items[n].rank.Some?)
    requires forall i :: 0 <= i < n ==> items[i].id != items[n].id
    ensures ItemsOk(items[..n + 1])
  {
    var before, all := items[..n], items[..n + 1];
    forall i, j | 0 <= i < j < |all| ensures all[i].id != all[j].id {
      if j < n {
        assert before[i].id != before[j].id;
      }
    }
    assert forall i :: 0 <= i < n ==> before[i] == all[i];
  }

  method Select(items: seq<Item>) returns (refusal: Option<Refusal>, rows: seq<Row>)
    ensures refusal.None? <==> ItemsOk(items)
    ensures refusal != Some(PortfolioTooLarge) && refusal != Some(EligibleOutsideRing) && refusal != Some(PreemptionNotEligible)
    ensures refusal.Some? ==> exists n: nat :: FirstBad(items, n, refusal.value)
    ensures refusal.None? ==> IsSelection(rows, items)
  {
    rows := [];
    var seen: set<ProjectId> := {};
    for n := 0 to |items|
      invariant ItemsOk(items[..n])
      invariant forall id :: id in seen <==> exists i :: 0 <= i < n && items[i].id == Some(id)
      invariant forall r :: r in rows ==> r.id in seen
      invariant IsSelection(rows, items[..n])
    {
      hide IsSelection;
      var item := items[n];
      assert items[..n + 1] == items[..n] + [item];
      if item.id.None? {
        assert FirstBad(items, n, InvalidIdentifier);
        return Some(InvalidIdentifier), [];
      }
      if item.id.value in seen {
        assert FirstBad(items, n, DuplicateProject);
        return Some(DuplicateProject), [];
      }
      seen := seen + {item.id.value};
      if item.selected.None? || item.paused.None? {
        assert FirstBad(items, n, InvalidOwnerSelection);
        return Some(InvalidOwnerSelection), [];
      }
      var before := rows;
      if item.selected.value {
        if item.rank.None? {
          assert FirstBad(items, n, InvalidInteger);
          return Some(InvalidInteger), [];
        }
        SelectionOrdered(before, items[..n]);
        rows := InsertRow(RowOf(item), rows);
      }
      SelectionGrows(before, items[..n], item, rows);
      ItemsOkGrows(items, n);
    }
    assert items[..|items|] == items;
    refusal := None;
  }

  lemma SelectionOrdered(rows: seq<Row>, items: seq<Item>)
    requires IsSelection(rows, items)
    ensures InOrder(rows)
  {
  }

  // ------------------------------------------------------------------- focus

  function Rotated(ring: seq<ProjectId>, start: nat): seq<ProjectId>
    requires start <= |ring|
  {
    ring[start..] + ring[..start]
  }

  function FirstIn(order: seq<ProjectId>, eligible: set<ProjectId>): Option<ProjectId> {
    if order == [] then None
    else if order[0] in eligible then Some(order[0])
    else FirstIn(order[1..], eligible)
  }

  /** The focus of an hour: the first eligible project from the anchor on. */
  function Focus(ring: seq<ProjectId>, eligible: set<ProjectId>, hour: nat): Option<ProjectId> {
    if ring == [] then None else FirstIn(Rotated(ring, hour % |ring|), eligible)
  }

  function Filter(ring: seq<ProjectId>, keep: set<ProjectId>): (r: seq<ProjectId>)
    ensures forall p :: p in r <==> p in ring && p in keep
  {
    if ring == [] then []
    else
      assert ring == [ring[0]] + ring[1..];
      (if ring[0] in keep then [ring[0]] else []) + Filter(ring[1..], keep)
  }

  /** `part` is what stands at `places` in the ring, in ring order. */
  predicate PartAt(part: seq<ProjectId>, ring: seq<ProjectId>, places: seq<nat>) {
    && |places| == |part|
    && (forall i, j :: 0 <= i < j < |places| ==> places[i] < places[j])
    && (forall i :: 0 <= i < |places| ==> places[i] < |ring| && part[i] == ring[places[i]])
  }

  ghost predicate InRing(part: seq<ProjectId>, ring: seq<ProjectId>) {
    exists places: seq<nat> :: PartAt(part, ring, places)
  }

  /** Filtering keeps the ring's order, place by place. */
  lemma {:induction false} FilterInOrder(ring: seq<ProjectId>, keep: set<ProjectId>)
    ensures InRing(Filter(ring, keep), ring)
    decreases |ring|
  {
    if ring == [] {
      assert PartAt([], [], []);
    } else {
      FilterInOrder(ring[1..], keep);
      hide PartAt;
      var rest: seq<nat> :| PartAt(Filter(ring[1..], keep), ring[1..], rest);
      PartMoves(Filter(ring[1..], keep), ring, rest);
      assert [] + Filter(ring[1..], keep) == Filter(ring[1..], keep);
    }
  }

  lemma PartMoves(part: seq<ProjectId>, ring: seq<ProjectId>, rest: seq<nat>)
    requires ring != [] && PartAt(part, ring[1..], rest)
    ensures InRing(part, ring) && InRing([ring[0]] + part, ring)
  {
    var moved: seq<nat> := seq(|rest|, i requires 0 <= i < |rest| => rest[i] + 1);
    assert PartAt(part, ring, moved);
    assert PartAt([ring[0]] + part, ring, [0] + moved);
  }

  predicate PausedIn(rows: seq<Row>, p: ProjectId) {
    exists i :: 0 <= i < |rows| && rows[i].id == p && rows[i].paused
  }

  /** The eligible projects that are not paused. */
  function Live(rows: seq<Row>, eligibleIds: set<ProjectId>): set<ProjectId> {
    set p | p in eligibleIds && !PausedIn(rows, p)
  }

  predicate MayPreempt(rows: seq<Row>, preempt: Option<ProjectId>, justified: bool) {
    preempt.Some? ==> preempt.value in Ids(rows) && !PausedIn(rows, preempt.value) && justified
  }

  method ChooseFocus(items: seq<Item>, eligibleIds: set<ProjectId>, hour: nat, preempt: Option<ProjectId>, justified: bool)
    returns (c: Choice, ghost rows: seq<Row>)
    ensures |items| > MAX_PORTFOLIO <==> c == RefusedBecause(PortfolioTooLarge)
    ensures |items| <= MAX_PORTFOLIO && ItemsOk(items) ==> IsSelection(rows, items)
    ensures c.Chosen? <==> |items| <= MAX_PORTFOLIO && ItemsOk(items)
                           && (forall p :: p in eligibleIds ==> p in Ids(rows)) && MayPreempt(rows, preempt, justified)
    ensures c.Chosen? ==>
      && c.plan.ring == Ids(rows)
      && c.plan.focus == (if preempt.Some? then preempt else Focus(Ids(rows), Live(rows, eligibleIds), hour))
      && c.plan.mode == (if preempt.Some? then CallerJustifiedPreemption else OrdinaryRotation)
      && (forall p :: p in c.plan.eligible <==> p in Live(rows, eligibleIds))
      && (forall p :: p in c.plan.deferred <==> p in Live(rows, eligibleIds) && c.plan.focus != Some(p))
      && InRing(c.plan.eligible, Ids(rows)) && InRing(c.plan.deferred, Ids(rows))
      && c.plan.anchor == (if rows == [] then None else Some(hour % |rows|))
    // and otherwise the first thing wrong is what is reported
    ensures |items| <= MAX_PORTFOLIO && !ItemsOk(items) ==> c.RefusedBecause? && exists n: nat :: FirstBad(items, n, c.reason)
    ensures |items| <= MAX_PORTFOLIO && ItemsOk(items) ==>
      && (c == RefusedBecause(EligibleOutsideRing) <==> exists p :: p in eligibleIds && p !in Ids(rows))
      && (c == RefusedBecause(PreemptionNotEligible) <==>
            (forall p :: p in eligibleIds ==> p in Ids(rows)) && !MayPreempt(rows, preempt, justified))
  {
    hide IsSelection, ItemsOk, Focus, FirstBad, InRing;
    rows := [];
    if |items| > MAX_PORTFOLIO { return RefusedBecause(PortfolioTooLarge), rows; }
    var refusal, selected := Select(items);
    rows := selected;
    if refusal.Some? {
      c := RefusedBecause(refusal.value);
      return;
    }
    var ring := Ids(selected);
    var paused := set i | 0 <= i < |selected| && selected[i].paused :: selected[i].id;
    assert forall p :: p in paused <==> PausedIn(rows, p);
    if !(forall p :: p in eligibleIds ==> p in ring) { return RefusedBecause(EligibleOutsideRing), rows; }
    var live := eligibleIds - paused;
    assert live == Live(rows, eligibleIds);
    hide PausedIn, Live;
    var focus := Focus(ring, live, hour);
    var mode := OrdinaryRotation;
    if preempt.Some? {
      if preempt.value !in ring || preempt.value in paused || !justified {
        return RefusedBecause(PreemptionNotEligible), rows;
      }
      focus, mode := preempt, CallerJustifiedPreemption;
    }
    var deferred := Filter(ring, if focus.Some? then live - {focus.value} else live);
    FilterInOrder(ring, live);
    FilterInOrder(ring, if focus.Some? then live - {focus.value} else live);
    c := Chosen(Plan(ring, if ring == [] then None else Some(hour % |ring|), focus, mode, Filter(ring, live), deferred));
  }

  // ---------------------------------------------------------------- fairness

  /** How far slot i lies after the start, round the ring. */
  function Distance(n: nat, start: nat, i: nat): nat
    requires start < n && i < n
  {
    if start <= i then i - start else i + n - start
  }

  /** The slot d before slot i. */
  function Back(n: nat, i: nat, d: nat): nat
    requires i < n && d < n
  {
    if d <= i then i - d else i + n - d
  }

  /** Exactly g slots directly before slot i are ineligible. */
  predicate GapBefore(ring: seq<ProjectId>, eligible: set<ProjectId>, i: nat, g: nat)
    requires i < |ring|
  {
    && g < |ring|
    && (forall d :: 1 <= d <= g ==> ring[Back(|ring|, i, d)] !in eligible)
    && (g + 1 < |ring| ==> ring[Back(|ring|, i, g + 1)] in eligible)
  }

  predicate DistinctIds(ring: seq<ProjectId>) {
    forall i, j :: 0 <= i < j < |ring| ==> ring[i] != ring[j]
  }

  lemma OneRowPerId(rows: seq<Row>, items: seq<Item>, a: Row, b: Row)
    requires ItemsOk(items) && IsSelection(rows, items) && a in rows && b in rows && a.id == b.id
    ensures a == b
  {
    var i :| 0 <= i < |items| && items[i].id == Some(a.id) && items[i].rank == Some(a.rank) && items[i].paused == Some(a.paused);
    var j :| 0 <= j < |items| && items[j].id == Some(b.id) && items[j].rank == Some(b.rank) && items[j].paused == Some(b.paused);
    assert i == j;
  }

  /** The ring has every selected project once. */
  lemma SelectionIsDistinct(rows: seq<Row>, items: seq<Item>)
    requires ItemsOk(items) && IsSelection(rows, items)
    ensures DistinctIds(Ids(rows))
  {
    forall i, j | 0 <= i < j < |rows| ensures rows[i].id != rows[j].id {
      assert RowBefore(rows[i], rows[j]);
      if rows[i].id == rows[j].id {
        OneRowPerId(rows, items, rows[i], rows[j]);
      }
    }
  }

  lemma {:induction false} FirstInAt(order: seq<ProjectId>, eligible: set<ProjectId>, k: nat)
    requires k < |order| && order[k] in eligible && forall j :: 0 <= j < k ==> order[j] !in eligible
    ensures FirstIn(order, eligible) == Some(order[k])
    decreases k
  {
    if k > 0 {
      FirstInAt(order[1..], eligible, k - 1);
    }
  }

  /** An eligible slot is the focus exactly from the starts at most its gap before it. */
  lemma FocusFrom(ring: seq<ProjectId>, eligible: set<ProjectId>, start: nat, i: nat, g: nat)
    requires DistinctIds(ring) && start < |ring| && i < |ring| && ring[i] in eligible && GapBefore(ring, eligible, i, g)
    ensures FirstIn(Rotated(ring, start), eligible) == Some(ring[i]) <==> Distance(|ring|, start, i) <= g
  {
    var n, order, d := |ring|, Rotated(ring, start), Distance(|ring|, start, i);
    assert forall k :: 0 <= k < n ==> order[k] == ring[if start + k < n then start + k else start + k - n];
    assert order[d] == ring[i];
    if d <= g {
      forall j | 0 <= j < d ensures order[j] !in eligible {
        assert order[j] == ring[Back(n, i, d - j)];
      }
      FirstInAt(order, eligible, d);
    } else {
      var k := d - (g + 1);
      assert order[k] == ring[Back(n, i, g + 1)];
      FirstEligible(order, eligible, k);
      var f :| 0 <= f <= k && order[f] in eligible && forall j :: 0 <= j < f ==> order[j] !in eligible;
      FirstInAt(order, eligible, f);
    }
  }

  lemma {:induction false} FirstEligible(order: seq<ProjectId>, eligible: set<ProjectId>, k: nat)
    requires k < |order| && order[k] in eligible
    ensures exists f :: 0 <= f <= k && order[f] in eligible && forall j :: 0 <= j < f ==> order[j] !in eligible
    decreases k
  {
    if j :| 0 <= j < k && order[j] in eligible {
      FirstEligible(order, eligible, j);
    }
  }

  lemma HourStart(n: nat, hour: nat, t: nat)
    requires n > 0 && t < n
    ensures (hour + t) % n == if hour % n + t < n then hour % n + t else hour % n + t - n
  {
    var q, r := hour / n, hour % n;
    assert hour + t == q * n + (r + t);
    if r + t < n {
      Remainder(n, q, r + t);
    } else {
      assert q * n + (r + t) == (q + 1) * n + (r + t - n);
      Remainder(n, q + 1, r + t - n);
    }
  }

  lemma Multiple(k: nat, n: nat)
    requires k >= 1
    ensures k * n >= n
  {
  }

  lemma Remainder(n: nat, q: nat, r: nat)
    requires r < n
    ensures (q * n + r) % n == r
  {
    var x := q * n + r;
    var p := x / n;
    assert x == p * n + x % n;
    assert (p - q) * n == r - x % n;
    if p > q {
      Multiple(p - q, n);
    } else if p < q {
      assert (q - p) * n == -((p - q) * n);
      Multiple(q - p, n);
    }
  }

  predicate FocusIs(ring: seq<ProjectId>, eligible: set<ProjectId>, hour: nat, t: nat, p: ProjectId) {
    Focus(ring, eligible, hour + t) == Some(p)
  }

  /** The hours of a window of one full turn in which slot i is the focus. */
  function FocusHours(ring: seq<ProjectId>, eligible: set<ProjectId>, hour: nat, i: nat): set<nat>
    requires i < |ring|
  {
    set t: nat | t < |ring| && FocusIs(ring, eligible, hour, t, ring[i])
  }

  /** The hour of the window whose anchor lies d before slot i. */
  function HourAt(n: nat, start: nat, i: nat, d: nat): nat
    requires start < n && i < n && d < n
  {
    Distance(n, start, Back(n, i, d))
  }

  /** Hour t's anchor lies d before slot i exactly if t is that hour. */
  lemma HourInverse(n: nat, start: nat, i: nat, d: nat, t: nat)
    requires start < n && i < n && d < n && t < n
    ensures HourAt(n, start, i, d) < n
    ensures var s := if start + t < n then start + t else start + t - n;
            HourAt(n, start, i, d) == t <==> Distance(n, s, i) == d
  {
  }

  function HoursUpTo(n: nat, start: nat, i: nat, g: nat): set<nat>
    requires start < n && i < n && g < n
  {
    set d: nat | d <= g :: HourAt(n, start, i, d)
  }

  lemma {:induction false} HoursCount(n: nat, start: nat, i: nat, g: nat)
    requires start < n && i < n && g < n
    ensures |HoursUpTo(n, start, i, g)| == g + 1
    decreases g
  {
    if g == 0 {
      assert HoursUpTo(n, start, i, 0) == {HourAt(n, start, i, 0)};
    } else {
      HoursCount(n, start, i, g - 1);
      assert HoursUpTo(n, start, i, g) == HoursUpTo(n, start, i, g - 1) + {HourAt(n, start, i, g)};
      assert HourAt(n, start, i, g) !in HoursUpTo(n, start, i, g - 1);
    }
  }

  lemma HoursWithin(n: nat, start: nat, i: nat, g: nat)
    requires start < n && i < n && g < n
    ensures forall t :: t in HoursUpTo(n, start, i, g) ==> t < n
  {
  }

  lemma InHours(n: nat, start: nat, i: nat, g: nat, t: nat)
    requires start < n && i < n && g < n && t < n
    ensures var s := if start + t < n then start + t else start + t - n;
            t in HoursUpTo(n, start, i, g) <==> Distance(n, s, i) <= g
  {
    var s := if start + t < n then start + t else start + t - n;
    HourInverse(n, start, i, Distance(n, s, i), t);
    forall d: nat | d <= g ensures HourAt(n, start, i, d) == t <==> Distance(n, s, i) == d {
      HourInverse(n, start, i, d, t);
    }
  }

  /** Rotation is fair, with exact counts: over any full turn of consecutive hours an eligible
      project is the focus once, and once more for every ineligible slot directly before it. */
  lemma FairShare(ring: seq<ProjectId>, eligible: set<ProjectId>, hour: nat, i: nat, g: nat)
    requires DistinctIds(ring) && i < |ring| && ring[i] in eligible && GapBefore(ring, eligible, i, g)
    ensures |FocusHours(ring, eligible, hour, i)| == 1 + g
  {
    var n, start := |ring|, hour % |ring|;
    forall t: nat ensures t in FocusHours(ring, eligible, hour, i) <==> t in HoursUpTo(n, start, i, g) {
      HoursWithin(n, start, i, g);
      if t < n {
        HourStart(n, hour, t);
        var s := (hour + t) % n;
        FocusFrom(ring, eligible, s, i, g);
        InHours(n, start, i, g, t);
        assert FocusIs(ring, eligible, hour, t, ring[i]) <==> Distance(n, s, i) <= g;
      }
    }
    assert FocusHours(ring, eligible, hour, i) == HoursUpTo(n, start, i, g);
    HoursCount(n, start, i, g);
  }

  /** An eligible anchor is the focus, whatever else is paused or becomes ineligible. */
  lemma EligibleAnchorStays(ring: seq<ProjectId>, eligible: set<ProjectId>, fewer: set<ProjectId>, hour: nat)
    requires ring != [] && fewer <= eligible && ring[hour % |ring|] in fewer
    ensures Focus(ring, eligible, hour) == Focus(ring, fewer, hour) == Some(ring[hour % |ring|])
  {
    FirstInAt(Rotated(ring, hour % |ring|), fewer, 0);
    FirstInAt(Rotated(ring, hour % |ring|), eligible, 0);
  }
}
