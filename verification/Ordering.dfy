/** Sorting identifiers by a rank and then by themselves: the total order behind every `sort` on ids. */
module Ordering {
  import opened Basics

  predicate Before(rank: Id -> real, a: Id, b: Id) {
    rank(a) < rank(b) || (rank(a) == rank(b) && a <= b)
  }

  lemma BeforeIsTransitive(rank: Id -> real, a: Id, b: Id, c: Id)
    requires Before(rank, a, b) && Before(rank, b, c)
    ensures Before(rank, a, c)
  {
  }

  ghost predicate IsLeast(s: set<Id>, rank: Id -> real, m: Id) {
    m in s && forall x :: x in s ==> Before(rank, m, x)
  }

  lemma {:induction false} FindLeast(s: set<Id>, rank: Id -> real) returns (m: Id)
    requires s != {}
    ensures IsLeast(s, rank, m)
    decreases s
  {
    m :| m in s;
    if s != {m} {
      var e, rest := m, s - {m};
      var n := FindLeast(rest, rank);
      if Before(rank, n, e) { m := n; }
      forall x | x in s ensures Before(rank, m, x) {
        if x in rest { BeforeIsTransitive(rank, m, n, x); }
      }
    }
  }

  lemma LeastExists(s: set<Id>, rank: Id -> real)
    requires s != {}
    ensures exists m :: IsLeast(s, rank, m)
  {
    var m := FindLeast(s, rank);
  }

  function Least(s: set<Id>, rank: Id -> real): (m: Id)
    requires s != {}
    ensures IsLeast(s, rank, m)
  {
    LeastExists(s, rank);
    assert forall m, n :: IsLeast(s, rank, m) && IsLeast(s, rank, n) ==> m == n;
    var m :| m in s && forall x :: x in s ==> Before(rank, m, x);
    m
  }

  function SortBy(s: set<Id>, rank: Id -> real): (r: seq<Id>)
    ensures forall x :: x in r <==> x in s
    ensures NoDuplicates(r)
    ensures forall i, j :: 0 <= i < j < |r| ==> Before(rank, r[i], r[j])
    decreases s
  {
    if s == {} then []
    else var m := Least(s, rank); [m] + SortBy(s - {m}, rank)
  }

  function SortIds(s: set<Id>): (r: seq<Id>)
    ensures forall x :: x in r <==> x in s
    ensures NoDuplicates(r)
  {
    SortBy(s, (x: Id) => 0.0)
  }
}
