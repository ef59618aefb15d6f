/** The largest element of a finite set of ids. */
module IntSets {

  predicate IsLargest(m: int, s: set<int>) {
    m in s && forall y :: y in s ==> y <= m
  }

  lemma Pick<T>(s: set<T>) returns (x: T)
    requires s != {}
    ensures x in s
  {
    x :| x in s;
  }

  method Take<T>(s: set<T>) returns (x: T)
    requires s != {}
    ensures x in s
  {
    x :| x in s;
  }

  lemma {:induction false} HasLargest(s: set<int>)
    requires s != {}
    ensures exists m :: IsLargest(m, s)
    decreases |s|
  {
    var m := Pick(s);
    var rest := s - {m};
    assert forall y :: y in s ==> y == m || y in rest;
    if rest == {} {
      assert IsLargest(m, s);
    } else {
      HasLargest(rest);
      var n :| IsLargest(n, rest);
      var top := if n > m then n else m;
      assert IsLargest(top, s);
    }
  }

  function MaxOf(s: set<int>): (m: int)
    requires s != {}
    ensures m in s && forall y :: y in s ==> y <= m
  {
    HasLargest(s);
    var m :| IsLargest(m, s);
    m
  }
}
