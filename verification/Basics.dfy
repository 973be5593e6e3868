/** Names shared by every component: identifiers, optional values, error results, points, small sequence tools. */
module Basics {
  /** Identifiers are strings in the program; only equality and one total order on them matter here. */
  type Id = nat

  datatype Option<+T> = None | Some(value: T)

  datatype Result<+T, +E> = Ok(value: T) | Err(error: E)

  datatype Point = Point(x: real, y: real)

  function Max(a: int, b: int): int { if a < b then b else a }

  function Min(a: int, b: int): int { if a < b then a else b }

  function Abs(a: int): nat { if a < 0 then -a else a }

  function Filter<T>(p: T -> bool, s: seq<T>): seq<T> {
    if s == [] then []
    else if p(s[0]) then [s[0]] + Filter(p, s[1..]) else Filter(p, s[1..])
  }

  lemma {:induction false} FilterConcat<T>(p: T -> bool, a: seq<T>, b: seq<T>)
    ensures Filter(p, a + b) == Filter(p, a) + Filter(p, b)
  {
    if a == [] {
      assert a + b == b;
    } else {
      assert (a + b)[0] == a[0] && (a + b)[1..] == a[1..] + b;
      FilterConcat(p, a[1..], b);
    }
  }

  lemma {:induction false} FilterAll<T>(p: T -> bool, s: seq<T>)
    requires forall x :: x in s ==> p(x)
    ensures Filter(p, s) == s
  {
    if s != [] { FilterAll(p, s[1..]); }
  }

  lemma {:induction false} FilterNone<T>(p: T -> bool, s: seq<T>)
    requires forall x :: x in s ==> !p(x)
    ensures Filter(p, s) == []
  {
    if s != [] { FilterNone(p, s[1..]); }
  }

  lemma {:induction false} FilterMember<T>(p: T -> bool, s: seq<T>, x: T)
    ensures x in Filter(p, s) <==> x in s && p(x)
  {
    if s != [] { FilterMember(p, s[1..], x); }
  }

  ghost predicate NoDuplicates<T(!new)>(s: seq<T>) {
    forall i, j :: 0 <= i < j < |s| ==> s[i] != s[j]
  }

  function Without(ids: seq<Id>, id: Id): seq<Id> { Filter((x: Id) => x != id, ids) }

  lemma {:induction false} WithoutKeepsOrder(ids: seq<Id>, id: Id)
    requires NoDuplicates(ids)
    ensures NoDuplicates(Without(ids, id)) && forall x :: x in Without(ids, id) <==> x in ids && x != id
  {
    if ids != [] {
      var rest0 := ids[1..];
      WithoutKeepsOrder(rest0, id);
      var rest := Without(rest0, id);
      assert forall j :: 0 <= j < |rest0| ==> rest0[j] == ids[j + 1];
      var kept := Without(ids, id);
      forall i, j | 0 <= i < j < |kept| ensures kept[i] != kept[j] {
        if ids[0] != id { assert kept[1..] == rest && (i == 0 ==> kept[j] == rest[j - 1] && rest[j - 1] in rest0); }
      }
    }
  }

  /** What is left of `b` when some of its elements are dropped: in the order of `b`, and none of them twice. */
  predicate Subsequence<T(==)>(a: seq<T>, b: seq<T>)
    decreases |b|
  {
    a == [] ||
    (b != [] &&
     (Subsequence(a, b[..|b| - 1])
      || (a[|a| - 1] == b[|b| - 1] && Subsequence(a[..|a| - 1], b[..|b| - 1]))))
  }

  lemma SubsequencePush<T>(a: seq<T>, b: seq<T>, x: T)
    requires Subsequence(a, b)
    ensures Subsequence(a + [x], b + [x])
  {
    assert (a + [x])[..|a|] == a && (b + [x])[..|b|] == b;
  }

  /** Dropping a stretch of a subsequence leaves one. */
  lemma {:induction false} SubsequenceDrop<T>(a: seq<T>, m: seq<T>, c: seq<T>, b: seq<T>)
    requires Subsequence(a + m + c, b)
    ensures Subsequence(a + c, b)
    decreases |b|
  {
    var all, kept := a + m + c, a + c;
    if kept != [] && all != [] {
      var init := b[..|b| - 1];
      if Subsequence(all, init) {
        SubsequenceDrop(a, m, c, init);
      } else if c != [] {
        assert all[..|all| - 1] == a + m + c[..|c| - 1] && kept[..|kept| - 1] == a + c[..|c| - 1];
        SubsequenceDrop(a, m, c[..|c| - 1], init);
      } else if m != [] {
        assert all[..|all| - 1] == a + m[..|m| - 1] + [] && kept == a + [];
        SubsequenceDrop(a, m[..|m| - 1], [], init);
      } else {
        assert all == kept;
      }
    }
  }

  lemma {:induction false} SubsequenceAsLong<T>(a: seq<T>, b: seq<T>)
    requires Subsequence(a, b)
    ensures |a| <= |b| && (|a| == |b| ==> a == b)
    decreases |b|
  {
    if a != [] {
      var init := b[..|b| - 1];
      if Subsequence(a, init) {
        SubsequenceAsLong(a, init);
      } else {
        SubsequenceAsLong(a[..|a| - 1], init);
        assert a == a[..|a| - 1] + [a[|a| - 1]] && b == init + [b[|b| - 1]];
      }
    }
  }
}
