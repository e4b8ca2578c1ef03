/** The "keep the newest windows" rule shared by the sniper and the oracle feed. */
module Newest {

  lemma {:induction false} HasMax(s: set<int>)
    requires |s| > 0
    ensures exists m :: m in s && forall x <- s :: x <= m
  {
    var y := Member(s);
    var t := s - {y};
    if t == {} {
      assert s == {y};
    } else {
      HasMax(t);
      var m :| m in t && forall x <- t :: x <= m;
      var top := if m < y then y else m;
      assert forall x <- s :: x == y || x in t;
      assert top in s && forall x <- s :: x <= top;
    }
  }

  lemma Member<T>(s: set<T>) returns (y: T)
    requires |s| > 0
    ensures y in s
  {
    y :| y in s;
  }

  function MaxOf(s: set<int>): (m: int)
    requires |s| > 0
    ensures m in s && forall x <- s :: x <= m
  {
    HasMax(s);
    var m :| m in s && forall x <- s :: x <= m;
    m
  }

  function MinOf(s: set<int>): (m: int)
    requires |s| > 0
    ensures m in s && forall x <- s :: m <= x
  {
    HasMin(s);
    var m :| m in s && forall x <- s :: m <= x;
    m
  }

  lemma {:induction false} HasMin(s: set<int>)
    requires |s| > 0
    ensures exists m :: m in s && forall x <- s :: m <= x
  {
    var y := Member(s);
    var t := s - {y};
    if t == {} {
      assert s == {y};
    } else {
      HasMin(t);
      var m :| m in t && forall x <- t :: m <= x;
      var bottom := if m < y then m else y;
      assert forall x <- s :: x == y || x in t;
      assert bottom in s && forall x <- s :: bottom <= x;
    }
  }

  /** The n largest elements. */
  function Largest(s: set<int>, n: nat): (r: set<int>)
    ensures r <= s && |r| == (if n < |s| then n else |s|)
    ensures forall x <- r, y <- s :: y !in r ==> y < x
    decreases |s|
  {
    if n == 0 || s == {} then {}
    else
      var m := MaxOf(s);
      {m} + Largest(s - {m}, n - 1)
  }

  /** There is only one way to keep n elements above all others. */
  lemma LargestUnique(s: set<int>, n: nat, r: set<int>)
    requires r <= s && |r| == (if n < |s| then n else |s|)
    requires forall x <- r, y <- s :: y !in r ==> y < x
    ensures r == Largest(s, n)
  {
    var l := Largest(s, n);
    if x :| x in r && x !in l {
      assert l <= r - {x};
      SubsetSize(l, r - {x});
    }
    SameSize(r, l);
  }

  lemma SameSize<T>(r: set<T>, l: set<T>)
    requires r <= l && |r| == |l|
    ensures r == l
  {
    if r != l {
      var y := Member(l - r);
      SubsetSize(r, l - {y});
    }
  }

  /** Dropping the smallest element of more than n changes nothing about the n largest. */
  lemma DropSmallest(s: set<int>, n: nat)
    requires n < |s|
    ensures Largest(s - {MinOf(s)}, n) == Largest(s, n)
  {
    var m, l := MinOf(s), Largest(s, n);
    if m in l {
      assert s <= l;
      SubsetSize(s, l);
    }
    LargestUnique(s - {m}, n, l);
  }

  /** How many elements lie above a bound. */
  function Above(s: set<int>, w: int): set<int> {
    set x <- s | x > w
  }

  lemma SubsetSize<T>(a: set<T>, b: set<T>)
    requires a <= b
    ensures |a| <= |b|
    decreases a
  {
    if x :| x in a {
      SubsetSize(a - {x}, b - {x});
    }
  }

  /** Whatever has n larger elements still has them after all but the n largest have been dropped; and whatever
      is dropped has them too. */
  lemma DroppedHaveLarger(s: set<int>, n: nat, w: int)
    requires n <= |s| && w !in Largest(s, n)
    requires w in s || |Above(s, w)| >= n
    ensures |Above(Largest(s, n), w)| >= n
  {
    var r := Largest(s, n);
    if y :| y in r && y <= w {
      assert w !in s;
      assert Above(s, w) + {y} <= r by { forall x | x in Above(s, w) ensures x in r { assert x in s && y < x; } }
      SubsetSize(Above(s, w) + {y}, r);
    } else {
      assert Above(r, w) == r;
    }
  }
}
