/** Sequence helpers for the `filter`, `map` and one-at-a-time removal the facade performs. */
module Seqs {

  /** `s.filter(p)`: the elements of `s` satisfying `p`, in order. */
  function Filter<T(!new)>(s: seq<T>, p: T -> bool): (r: seq<T>)
    ensures |r| <= |s|
    ensures forall x :: x in r <==> x in s && p(x)
  {
    if s == [] then [] else (if p(s[0]) then [s[0]] else []) + Filter(s[1..], p)
  }

  /** The elements of `s` NOT satisfying `p`, in order: what a filter leaves behind. */
  function Reject<T(!new)>(s: seq<T>, p: T -> bool): (r: seq<T>)
    ensures |r| <= |s|
    ensures forall x :: x in r <==> x in s && !p(x)
  {
    if s == [] then [] else (if p(s[0]) then [] else [s[0]]) + Reject(s[1..], p)
  }

  /** `s.map(f)`. */
  function MapSeq<T, U>(f: T -> U, s: seq<T>): (r: seq<U>)
    ensures |r| == |s|
    ensures forall i :: 0 <= i < |s| ==> r[i] == f(s[i])
  {
    if s == [] then [] else [f(s[0])] + MapSeq(f, s[1..])
  }

  /** A sequence holding `f` of each element of `s`, position by position, is `s.map(f)`. */
  lemma MapSeqPointwise<T, U>(f: T -> U, s: seq<T>, r: seq<U>)
    requires |r| == |s| && forall k :: 0 <= k < |s| ==> r[k] == f(s[k])
    ensures r == MapSeq(f, s)
  {
  }

  /** The conjunction of two element tests. */
  function Both<T>(p: T -> bool, q: T -> bool): T -> bool
  {
    x => p(x) && q(x)
  }

  /** `s` without its first element equal to `x` (unchanged when there is none). */
  function RemoveFirst<T(==,!new)>(s: seq<T>, x: T): (r: seq<T>)
    ensures x in s ==> |r| == |s| - 1
    ensures forall y :: y in r ==> y in s
    ensures x !in s ==> r == s
  {
    if s == [] then [] else if s[0] == x then s[1..] else [s[0]] + RemoveFirst(s[1..], x)
  }

  lemma {:induction false} FilterAppend<T(!new)>(a: seq<T>, b: seq<T>, p: T -> bool)
    ensures Filter(a + b, p) == Filter(a, p) + Filter(b, p)
  {
    if a != [] {
      assert (a + b)[0] == a[0];
      assert (a + b)[1..] == a[1..] + b;
      FilterAppend(a[1..], b, p);
    } else {
      assert a + b == b;
    }
  }

  lemma {:induction false} MapSeqAppend<T, U>(f: T -> U, a: seq<T>, b: seq<T>)
    ensures MapSeq(f, a + b) == MapSeq(f, a) + MapSeq(f, b)
  {
    if a != [] {
      assert (a + b)[1..] == a[1..] + b;
      MapSeqAppend(f, a[1..], b);
    } else {
      assert a + b == b;
    }
  }

  /** An element is in `s.filter(p).map(f)` exactly when it is the image of an element of `s` passing `p`. */
  lemma MapFilterMembers<T(!new), U>(f: T -> U, s: seq<T>, p: T -> bool, y: U)
    ensures y in MapSeq(f, Filter(s, p)) <==> exists x :: x in s && p(x) && y == f(x)
  {
    var kept := Filter(s, p);
    if y in MapSeq(f, kept) {
      var i :| 0 <= i < |kept| && MapSeq(f, kept)[i] == y;
      assert kept[i] in kept;
    }
    if exists x :: x in s && p(x) && y == f(x) {
      var x :| x in s && p(x) && y == f(x);
      assert x in kept;
      var i :| 0 <= i < |kept| && kept[i] == x;
      assert MapSeq(f, kept)[i] == y;
    }
  }

  /** Two filters in a row are one filter by the conjunction. */
  lemma {:induction false} FilterFilter<T(!new)>(s: seq<T>, p: T -> bool, q: T -> bool)
    ensures Filter(Filter(s, p), q) == Filter(s, Both(p, q))
  {
    if s != [] {
      FilterFilter(s[1..], p, q);
      if p(s[0]) {
        assert Filter(s, p) == [s[0]] + Filter(s[1..], p);
        assert Filter(s, p)[1..] == Filter(s[1..], p);
      } else {
        assert Filter(s, p) == Filter(s[1..], p);
      }
    }
  }

  /** Filters by two tests that agree on every element of `s` give the same result. */
  lemma {:induction false} FilterAgreeing<T(!new)>(s: seq<T>, p: T -> bool, q: T -> bool)
    requires forall x :: x in s ==> p(x) == q(x)
    ensures Filter(s, p) == Filter(s, q)
  {
    if s != [] {
      assert s[0] in s;
      FilterAgreeing(s[1..], p, q);
    }
  }

  /** A filter comes out empty exactly when no element passes. */
  lemma {:induction false} FilterEmpty<T(!new)>(s: seq<T>, p: T -> bool)
    ensures Filter(s, p) == [] <==> forall x :: x in s ==> !p(x)
  {
    if s != [] {
      assert s[0] in s;
      FilterEmpty(s[1..], p);
      assert forall x :: x in s[1..] ==> x in s;
      assert forall x :: x in s ==> x == s[0] || x in s[1..];
    }
  }

  /** Filtering a single element. */
  lemma FilterSingle<T(!new)>(x: T, p: T -> bool)
    ensures Filter([x], p) == if p(x) then [x] else []
  {
    assert [x][1..] == [];
  }

  /** When nothing is selected, nothing is left behind either. */
  lemma {:induction false} RejectNoneSelected<T(!new)>(s: seq<T>, p: T -> bool)
    requires Filter(s, p) == []
    ensures Reject(s, p) == s
  {
    if s != [] {
      assert !p(s[0]);
      RejectNoneSelected(s[1..], p);
    }
  }

  /**
    Removing the first selected element `x` takes it off the front of the
    selected elements and leaves the unselected ones as they were.
  */
  lemma {:induction false} RemoveFirstSelected<T(!new)>(s: seq<T>, p: T -> bool, x: T, rest: seq<T>)
    requires p(x) && Filter(s, p) == [x] + rest
    ensures Filter(RemoveFirst(s, x), p) == rest
    ensures Reject(RemoveFirst(s, x), p) == Reject(s, p)
  {
    assert s != [];
    if s[0] == x {
      assert Filter(s, p) == [x] + Filter(s[1..], p);
      assert ([x] + Filter(s[1..], p))[1..] == Filter(s[1..], p);
    } else {
      var head := s[0];
      assert Filter(s, p)[0] == x && x != head;
      assert Filter(s, p) == (if p(head) then [head] else []) + Filter(s[1..], p);
      assert Filter(s, p) == Filter(s[1..], p);
      RemoveFirstSelected(s[1..], p, x, rest);
      assert RemoveFirst(s, x) == [s[0]] + RemoveFirst(s[1..], x);
    }
  }
}
