/** `_request_paths`: fair paging over the staged-request inbox.

A directory entry is its sort key (case-folded name, then name) and how its name looks.
Names in one directory are distinct, so keys are. */
module Inbox {
  import opened Protocol

  datatype Entry = Entry(key: int, requestLike: bool, jsonLike: bool)

  datatype Listing = DirectoryMissing | PermissionDenied | IoError | Entries(names: seq<Entry>)

  datatype ScanStatus = ScanComplete | ScanMissing | ScanDenied | ScanIoError | ScanIncomplete

  datatype ScanReport = ScanReport(
    status: ScanStatus,
    examined: nat,
    candidates: nat,
    unsupportedJson: nat,
    ignored: nat,
    truncated: bool)

  const MAX_SCAN_ENTRIES := 128
  const SCAN_BUDGET := MAX_SCAN_ENTRIES * 32

  // ------------------------------------------------------------- ring order

  /** Starting after the cursor and wrapping round, y comes before x. */
  predicate Before(cursor: Option<int>, y: int, x: int) {
    if cursor.None? || (y > cursor.value <==> x > cursor.value) then y < x else y > cursor.value
  }

  /** How many candidates are offered before x. */
  function Ahead(s: set<int>, cursor: Option<int>, x: int): nat {
    |set y | y in s && Before(cursor, y, x)|
  }

  // ---------------------------------------------------------- sorted listing

  predicate Ascending(s: seq<int>) {
    forall i, j :: 0 <= i < j < |s| ==> s[i] < s[j]
  }

  lemma FirstIsLeast(s: seq<int>)
    requires Ascending(s) && s != []
    ensures Ascending(s[1..]) && (forall y :: y in s[1..] ==> s[0] < y) && forall y :: y in s <==> y == s[0] || y in s[1..]
  {
    assert s == [s[0]] + s[1..];
  }

  lemma PutFirst(x: int, s: seq<int>)
    requires Ascending(s) && forall y :: y in s ==> x < y
    ensures Ascending([x] + s)
  {
    forall i, j | 0 <= i < j < |s| + 1 ensures ([x] + s)[i] < ([x] + s)[j] {
      assert s[j - 1] in s;
    }
  }

  function Insert(x: int, s: seq<int>): (r: seq<int>)
    requires Ascending(s) && x !in s
    ensures Ascending(r) && forall y :: y in r <==> y == x || y in s
    ensures |r| == |s| + 1
  {
    if s == [] then [x]
    else
      FirstIsLeast(s);
      if x < s[0] then PutFirst(x, s); [x] + s
      else
        var rest := Insert(x, s[1..]);
        PutFirst(s[0], rest);
        [s[0]] + rest
  }

  predicate Distinct(s: seq<int>) {
    forall i, j :: 0 <= i < j < |s| ==> s[i] != s[j]
  }

  function Sort(s: seq<int>): (r: seq<int>)
    requires Distinct(s)
    ensures Ascending(r) && |r| == |s| && forall y :: y in r <==> y in s
  {
    if s == [] then []
    else
      assert s == [s[0]] + s[1..];
      Insert(s[0], Sort(s[1..]))
  }

  function After(s: seq<int>, cursor: int): (r: seq<int>)
    requires Ascending(s)
    ensures Ascending(r) && forall y :: y in r <==> y in s && y > cursor
  {
    if s == [] then []
    else
      FirstIsLeast(s);
      var rest := After(s[1..], cursor);
      PutFirst(s[0], rest);
      if s[0] > cursor then [s[0]] + rest else rest
  }

  function UpTo(s: seq<int>, cursor: int): (r: seq<int>)
    requires Ascending(s)
    ensures Ascending(r) && forall y :: y in r <==> y in s && y <= cursor
  {
    if s == [] then []
    else
      FirstIsLeast(s);
      var rest := UpTo(s[1..], cursor);
      PutFirst(s[0], rest);
      if s[0] <= cursor then [s[0]] + rest else rest
  }

  /** In ring order: each entry comes before every later one. */
  predicate InRingOrder(order: seq<int>, cursor: Option<int>) {
    forall i, j :: 0 <= i < j < |order| ==> Before(cursor, order[i], order[j])
  }

  lemma LaterThenEarlier(sorted: seq<int>, cursor: int)
    requires Ascending(sorted)
    ensures var order := After(sorted, cursor) + UpTo(sorted, cursor);
            InRingOrder(order, Some(cursor)) && forall y :: y in order <==> y in sorted
  {
    var later, earlier := After(sorted, cursor), UpTo(sorted, cursor);
    var order := later + earlier;
    forall i, j | 0 <= i < j < |order| ensures Before(Some(cursor), order[i], order[j]) {
      if i < |later| { assert order[i] in later; } else { assert order[i] in earlier; }
      if j < |later| { assert order[j] in later; } else { assert order[j] in earlier; }
    }
  }

  // ------------------------------------------------------------------ a page

  function Keys(s: seq<int>): set<int> {
    set x | x in s
  }

  lemma {:induction false} PrefixSize(order: seq<int>, n: nat)
    requires Distinct(order) && n <= |order|
    ensures |Keys(order[..n])| == n
    decreases n
  {
    if n > 0 {
      PrefixSize(order, n - 1);
      assert order[..n] == order[..n - 1] + [order[n - 1]];
      assert Keys(order[..n]) == Keys(order[..n - 1]) + {order[n - 1]};
    }
  }

  lemma NotBoth(cursor: Option<int>, x: int, y: int)
    ensures !(Before(cursor, x, y) && Before(cursor, y, x))
  {
  }

  /** The i-th entry in ring order has exactly i entries ahead of it. */
  lemma AheadIsIndex(order: seq<int>, s: set<int>, cursor: Option<int>, i: nat)
    requires InRingOrder(order, cursor) && i < |order| && forall y :: y in order <==> y in s
    ensures Ahead(s, cursor, order[i]) == i
  {
    assert Distinct(order) by {
      forall a, b | 0 <= a < b < |order| ensures order[a] != order[b] {
        assert Before(cursor, order[a], order[b]);
      }
    }
    PrefixSize(order, i);
    forall y ensures y in s && Before(cursor, y, order[i]) <==> y in order[..i] {
      if y in s && Before(cursor, y, order[i]) {
        var j :| 0 <= j < |order| && order[j] == y;
        NotBoth(cursor, order[i], order[j]);
      }
    }
    assert (set y | y in s && Before(cursor, y, order[i])) == Keys(order[..i]);
  }

  /** A page: no repeats, in ring order, exactly the candidates with fewer than k ahead, and a
      cursor on its last entry. */
  ghost predicate IsPage(page: seq<int>, s: set<int>, cursor: Option<int>, k: nat, next: Option<int>) {
    && Distinct(page)
    && (forall x :: x in page <==> x in s && Ahead(s, cursor, x) < k)
    && next == (if page == [] then cursor else Some(page[|page| - 1]))
    && InRingOrder(page, cursor)
    && (|page| == k || forall x :: x in s ==> x in page)
  }

  lemma PrefixIsPage(order: seq<int>, s: set<int>, cursor: Option<int>, k: nat)
    requires InRingOrder(order, cursor) && forall y :: y in order <==> y in s
    ensures var page := order[..if k < |order| then k else |order|];
            IsPage(page, s, cursor, k, if page == [] then cursor else Some(page[|page| - 1]))
  {
    var n := if k < |order| then k else |order|;
    var page := order[..n];
    forall i, j | 0 <= i < j < n ensures page[i] != page[j] {
      assert Before(cursor, order[i], order[j]);
    }
    forall x ensures x in page <==> x in s && Ahead(s, cursor, x) < k {
      if x in order {
        var i :| 0 <= i < |order| && order[i] == x;
        AheadIsIndex(order, s, cursor, i);
        if x in page {
          var j :| 0 <= j < n && page[j] == x;
          AheadIsIndex(order, s, cursor, j);
        } else {
          assert i >= n;
        }
      }
    }
  }

  // ------------------------------------------------------------------- inbox

  /** The request-like names among the entries examined. */
  function Candidates(names: seq<Entry>): (r: seq<int>)
    ensures |r| <= |names|
    ensures forall x :: x in r <==> exists i :: 0 <= i < |names| && names[i].requestLike && names[i].key == x
  {
    if names == [] then []
    else
      var n := |names| - 1;
      Candidates(names[..n]) + (if names[n].requestLike then [names[n].key] else [])
  }

  /** The places of the JSON files among the entries examined that are no requests. */
  function OtherJson(names: seq<Entry>): set<nat> {
    set i: nat | i < |names| && !names[i].requestLike && names[i].jsonLike
  }

  lemma OneMoreEntry(names: seq<Entry>, n: nat)
    requires n < |names|
    ensures |OtherJson(names[..n + 1])| == |OtherJson(names[..n])| + if !names[n].requestLike && names[n].jsonLike then 1 else 0
  {
    var before, all := OtherJson(names[..n]), OtherJson(names[..n + 1]);
    if !names[n].requestLike && names[n].jsonLike {
      assert all == before + {n};
    } else {
      assert all == before;
    }
  }

  predicate DistinctNames(names: seq<Entry>) {
    forall i, j :: 0 <= i < j < |names| ==> names[i].key != names[j].key
  }

  lemma {:induction false} CandidatesDistinct(names: seq<Entry>)
    requires DistinctNames(names)
    ensures Distinct(Candidates(names))
    decreases |names|
  {
    if names != [] {
      var n := |names| - 1;
      var before := Candidates(names[..n]);
      CandidatesDistinct(names[..n]);
      assert names[n].key !in before;
      assert forall i :: 0 <= i < |before| ==> before[i] in before;
    }
  }

  function Examined(names: seq<Entry>): seq<Entry> {
    if |names| <= SCAN_BUDGET then names else names[..SCAN_BUDGET]
  }

  class Gateway {
    const maxRequestsPerPoll: nat
    var scanAfter: Option<int>
    var lastScan: ScanReport

    predicate Valid()
      reads this
    {
      1 <= maxRequestsPerPoll <= MAX_SCAN_ENTRIES
    }

    constructor (limit: nat)
      requires 1 <= limit <= MAX_SCAN_ENTRIES
      ensures Valid() && maxRequestsPerPoll == limit && scanAfter == None
    {
      maxRequestsPerPoll, scanAfter := limit, None;
      lastScan := ScanReport(ScanComplete, 0, 0, 0, 0, false);
    }

    method RequestPaths(listing: Listing) returns (page: seq<int>)
      requires Valid() && (listing.Entries? ==> DistinctNames(listing.names))
      modifies this
      ensures Valid() && |page| <= maxRequestsPerPoll
      ensures !listing.Entries? ==> page == [] && scanAfter == old(scanAfter)
      ensures match listing
              case DirectoryMissing => lastScan == ScanReport(ScanMissing, 0, 0, 0, 0, false)
              case PermissionDenied => lastScan == ScanReport(ScanDenied, 0, 0, 0, 0, false)
              case IoError => lastScan == ScanReport(ScanIoError, 0, 0, 0, 0, false)
              case Entries(names) => lastScan.status == (if |names| <= SCAN_BUDGET then ScanComplete else ScanIncomplete)
      ensures listing.Entries? ==>
        && IsPage(page, Keys(Candidates(Examined(listing.names))), old(scanAfter), maxRequestsPerPoll, scanAfter)
        && lastScan.candidates == |Candidates(Examined(listing.names))|
        && lastScan.truncated == (|Candidates(Examined(listing.names))| > |page|)
        && (lastScan.status == ScanComplete <==> |listing.names| <= SCAN_BUDGET)
        && lastScan.examined == |Examined(listing.names)|
        && lastScan.ignored == lastScan.examined - lastScan.candidates
        && lastScan.unsupportedJson == |OtherJson(Examined(listing.names))|
      ensures lastScan.status == ScanComplete ==> listing.Entries?
    {
      hide IsPage;
      lastScan := ScanReport(ScanComplete, 0, 0, 0, 0, false);
      match listing
      case DirectoryMissing => lastScan := lastScan.(status := ScanMissing); return [];
      case PermissionDenied => lastScan := lastScan.(status := ScanDenied); return [];
      case IoError => lastScan := lastScan.(status := ScanIoError); return [];
      case Entries(names) =>
        var paths: seq<int> := [];
        var i := 0;
        while i < |names|
          invariant 0 <= i <= |names| && i <= SCAN_BUDGET
          invariant scanAfter == old(scanAfter)
          invariant paths == Candidates(names[..i])
          invariant lastScan.status == ScanComplete && lastScan.examined == i
          invariant lastScan.ignored == i - |paths|
          invariant !lastScan.truncated && lastScan.candidates == 0
          invariant lastScan.unsupportedJson == |OtherJson(names[..i])|
        {
          if lastScan.examined >= SCAN_BUDGET {
            lastScan := lastScan.(status := ScanIncomplete);
            break;
          }
          assert names[..i + 1][..i] == names[..i];
          var entry := names[i];
          OneMoreEntry(names, i);
          lastScan := lastScan.(examined := lastScan.examined + 1);
          if entry.requestLike {
            paths := paths + [entry.key];
          } else {
            lastScan := lastScan.(ignored := lastScan.ignored + 1,
              unsupportedJson := lastScan.unsupportedJson + if entry.jsonLike then 1 else 0);
          }
          i := i + 1;
        }
        assert names[..i] == Examined(names);
        CandidatesDistinct(names[..i]);
        page := NextPage(paths);
        lastScan := lastScan.(candidates := |paths|, truncated := |paths| > |page|);
    }

    /** Sort, rotate past the cursor, cut a page and move the cursor to its end. */
    method NextPage(paths: seq<int>) returns (page: seq<int>)
      requires Valid() && Distinct(paths)
      modifies this`scanAfter
      ensures |page| <= maxRequestsPerPoll
      ensures IsPage(page, Keys(paths), old(scanAfter), maxRequestsPerPoll, scanAfter)
    {
      var order := Sort(paths);
      if scanAfter.Some? {
        LaterThenEarlier(order, scanAfter.value);
        order := After(order, scanAfter.value) + UpTo(order, scanAfter.value);
      }
      PrefixIsPage(order, Keys(paths), scanAfter, maxRequestsPerPoll);
      page := order[..if maxRequestsPerPoll < |order| then maxRequestsPerPoll else |order|];
      if page != [] {
        scanAfter := Some(page[|page| - 1]);
      }
    }
  }

  // ---------------------------------------------------------------- fairness

  /** A run of scans: what each saw, offered and remembered.  Requests may disappear between
      scans; none appears. */
  ghost predicate Scans(seen: seq<set<int>>, pages: seq<seq<int>>, cursors: seq<Option<int>>, k: nat) {
    && |pages| == |seen| && |cursors| == |seen| + 1
    && (forall i :: 0 <= i < |seen| ==> PageAt(seen, pages, cursors, k, i))
    && (forall i, j :: 0 <= i <= j < |seen| ==> seen[j] <= seen[i])
  }

  ghost predicate PageAt(seen: seq<set<int>>, pages: seq<seq<int>>, cursors: seq<Option<int>>, k: nat, i: nat)
    requires i < |seen| && |pages| == |seen| && |cursors| == |seen| + 1
  {
    IsPage(pages[i], seen[i], cursors[i], k, cursors[i + 1])
  }

  /** Moving the cursor to `last`, before x, drops exactly what came up to `last`. */
  lemma AfterTheCursor(cursor: Option<int>, last: int, y: int, x: int)
    requires Before(cursor, last, x) && Before(Some(last), y, x)
    ensures Before(cursor, y, x) && y != last && !Before(cursor, y, last)
  {
  }

  lemma LastOfPage(page: seq<int>, cursor: Option<int>)
    requires InRingOrder(page, cursor) && page != []
    ensures forall y :: y in page ==> y == page[|page| - 1] || Before(cursor, y, page[|page| - 1])
  {
    hide Before;
    forall y | y in page ensures y == page[|page| - 1] || Before(cursor, y, page[|page| - 1]) {
      var j :| 0 <= j < |page| && page[j] == y;
    }
  }

  lemma OfferedAreGone(s: set<int>, t: set<int>, offered: set<int>, cursor: Option<int>, last: int, x: int)
    requires t <= s && offered <= s && Before(cursor, last, x)
    requires forall y :: y in offered ==> Before(cursor, y, x)
    requires forall y :: y in offered ==> y == last || Before(cursor, y, last)
    ensures Ahead(t, Some(last), x) + |offered| <= Ahead(s, cursor, x)
  {
    var before := set y | y in s && Before(cursor, y, x);
    var still := set y | y in t && Before(Some(last), y, x);
    forall y | y in still ensures y in before && y !in offered {
      AfterTheCursor(cursor, last, y, x);
    }
    hide Before;
    Subset(still + offered, before);
    assert still !! offered;
  }

  /** A request that is passed over has k fewer ahead of it at the next scan, whatever was
      removed in between, the cursor's own entry included. */
  lemma PassedOverMovesUp(s: set<int>, t: set<int>, page: seq<int>, cursor: Option<int>, k: nat, next: Option<int>, x: int)
    requires IsPage(page, s, cursor, k, next) && t <= s && x in t && x !in page && k > 0
    ensures Ahead(t, next, x) + k <= Ahead(s, cursor, x)
  {
    hide Before, Ahead, InRingOrder;
    assert |page| == k && page[..|page|] == page;
    PrefixSize(page, |page|);
    LastOfPage(page, cursor);
    assert page[|page| - 1] in page;
    forall y | y in page ensures Before(cursor, y, x) {
      OfferedFirst(s, cursor, k, y, x);
    }
    OfferedAreGone(s, t, Keys(page), cursor, page[|page| - 1], x);
  }

  lemma Subset(a: set<int>, b: set<int>)
    requires a <= b
    ensures |a| <= |b|
  {
    assert b == a + (b - a);
  }

  lemma OfferedFirst(s: set<int>, cursor: Option<int>, k: nat, y: int, x: int)
    requires y in s && x in s && Ahead(s, cursor, y) < k <= Ahead(s, cursor, x)
    ensures Before(cursor, y, x)
  {
    if !Before(cursor, y, x) && y != x {
      var a, b := set z | z in s && Before(cursor, z, x), set z | z in s && Before(cursor, z, y);
      forall z | z in a ensures z in b {
      }
      Subset(a, b);
    }
  }

  /** Paging is fair: a request present throughout is offered within its share of scans. */
  lemma {:induction false} OfferedWithin(seen: seq<set<int>>, pages: seq<seq<int>>, cursors: seq<Option<int>>, k: nat, x: int, m: nat)
    requires Scans(seen, pages, cursors, k) && k > 0 && m < |seen|
    requires x in seen[m] && forall i :: 0 <= i <= m ==> x !in pages[i]
    ensures Ahead(seen[m], cursors[m], x) >= k && Ahead(seen[0], cursors[0], x) >= (m + 1) * k
    decreases m
  {
    assert PageAt(seen, pages, cursors, k, m);
    if m > 0 {
      assert PageAt(seen, pages, cursors, k, m - 1);
      OfferedWithin(seen, pages, cursors, k, x, m - 1);
      PassedChain(seen, pages, cursors, k, x, m);
    }
  }

  lemma {:induction false} PassedChain(seen: seq<set<int>>, pages: seq<seq<int>>, cursors: seq<Option<int>>, k: nat, x: int, m: nat)
    requires Scans(seen, pages, cursors, k) && k > 0 && m < |seen|
    requires x in seen[m] && forall i :: 0 <= i < m ==> x !in pages[i]
    ensures Ahead(seen[m], cursors[m], x) + m * k <= Ahead(seen[0], cursors[0], x)
    decreases m
  {
    if m > 0 {
      PassedChain(seen, pages, cursors, k, x, m - 1);
      assert PageAt(seen, pages, cursors, k, m - 1);
      PassedOverMovesUp(seen[m - 1], seen[m], pages[m - 1], cursors[m - 1], k, cursors[m], x);
      assert (m - 1) * k + k == m * k;
    }
  }

  /** The bound: with n requests at the first scan, ceil(n / k) consecutive scans offer every
      one that is still there. */
  lemma EveryRequestIsOffered(seen: seq<set<int>>, pages: seq<seq<int>>, cursors: seq<Option<int>>, k: nat, x: int)
    requires Scans(seen, pages, cursors, k) && k > 0 && |seen| > 0
    requires |seen| * k >= |seen[0]| && x in seen[|seen| - 1]
    ensures exists i :: 0 <= i < |pages| && x in pages[i]
  {
    if forall i :: 0 <= i < |pages| ==> x !in pages[i] {
      var m := |seen| - 1;
      OfferedWithin(seen, pages, cursors, k, x, m);
      PassedChain(seen, pages, cursors, k, x, m);
      var ahead := set y | y in seen[0] && Before(cursors[0], y, x);
      assert x in seen[0] && x !in ahead;
      Subset(ahead + {x}, seen[0]);
    }
  }
}
