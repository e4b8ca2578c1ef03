/** The one-pass correlation of scripts/m1_binance_lead.py, in exact arithmetic; None stands for NaN. */
module Correlation {
  import opened Grid

  type Series = seq<Option<real>>

  datatype Pair = Pair(x: real, y: real)

  /** The running sums of the loop. */
  datatype Sums = Sums(n: nat, sx: real, sy: real, sxx: real, syy: real, sxy: real)

  /** The quotient cov / sqrt(vx * vy), or NaN. */
  datatype Verdict = Undefined(n: nat) | Quotient(n: nat, cov: real, vx: real, vy: real)

  const NO_SUMS: Sums := Sums(0, 0.0, 0.0, 0.0, 0.0, 0.0)

  function Add(s: Sums, p: Pair): Sums {
    Sums(s.n + 1, s.sx + p.x, s.sy + p.y, s.sxx + Product(p.x, p.x), s.syy + Product(p.y, p.y), s.sxy + Product(p.x, p.y))
  }

  function Totals(ps: seq<Pair>): Sums {
    if ps == [] then NO_SUMS else Add(Totals(ps[..|ps| - 1]), ps[|ps| - 1])
  }

  function Shorter(xs: Series, ys: Series): nat {
    if |xs| < |ys| then |xs| else |ys|
  }

  /** The first k entries where neither series is NaN. */
  function Pairs(xs: Series, ys: Series, k: nat): seq<Pair>
    requires k <= Shorter(xs, ys)
  {
    if k == 0 then []
    else
      var rest := Pairs(xs, ys, k - 1);
      if xs[k - 1].Some? && ys[k - 1].Some? then rest + [Pair(xs[k - 1].value, ys[k - 1].value)] else rest
  }

  /** The sum of the products of the deviations from a and b. */
  function Centred(ps: seq<Pair>, a: real, b: real): real {
    if ps == [] then 0.0
    else
      var p := ps[|ps| - 1];
      Centred(ps[..|ps| - 1], a, b) + Product(p.x - a, p.y - b)
  }

  function Swapped(ps: seq<Pair>): seq<Pair> {
    seq(|ps|, i requires 0 <= i < |ps| => Pair(ps[i].y, ps[i].x))
  }

  function Doubled(ps: seq<Pair>): seq<Pair> {
    seq(|ps|, i requires 0 <= i < |ps| => Pair(ps[i].x, ps[i].x))
  }

  function Mean(total: real, n: nat): real
    requires n > 0
  {
    total / n as real
  }

  /** The two-pass figures: deviations from the means, multiplied and added up. */
  function Covariance(ps: seq<Pair>): real
    requires ps != []
  {
    Centred(ps, Mean(Totals(ps).sx, |ps|), Mean(Totals(ps).sy, |ps|))
  }

  /** A raw sum of products, less what the means account for. */
  function Corrected(raw: real, sa: real, sb: real, n: nat): real
    requires n > 0
  {
    raw - sa * sb / n as real
  }

  method Pearson(xs: Series, ys: Series) returns (v: Verdict)
    ensures var ps := Pairs(xs, ys, Shorter(xs, ys));
            && v.n == |ps|
            && (v.Undefined? <==> |ps| < 100 || Covariance(Doubled(ps)) == 0.0 || Covariance(Doubled(Swapped(ps))) == 0.0)
            && (v.Quotient? ==>
                  && v.cov == Covariance(ps)
                  && v.vx == Covariance(Doubled(ps)) > 0.0
                  && v.vy == Covariance(Doubled(Swapped(ps))) > 0.0
                  && Product(v.cov, v.cov) <= Product(v.vx, v.vy))
  {
    var s := NO_SUMS;
    var k := 0;
    while k < Shorter(xs, ys)
      invariant 0 <= k <= Shorter(xs, ys) && s == Totals(Pairs(xs, ys, k))
    {
      if xs[k].Some? && ys[k].Some? {
        ghost var before, p := Pairs(xs, ys, k), Pair(xs[k].value, ys[k].value);
        assert (before + [p])[..|before|] == before;
        s := Add(s, Pair(xs[k].value, ys[k].value));
      }
      k := k + 1;
    }
    ghost var ps := Pairs(xs, ys, k);
    Counted(ps);
    if s.n < 100 {
      return Undefined(s.n);
    }
    var cov := Corrected(s.sxy, s.sx, s.sy, s.n);
    var vx := Corrected(s.sxx, s.sx, s.sx, s.n);
    var vy := Corrected(s.syy, s.sy, s.sy, s.n);
    OnePass(ps, s);
    CauchySchwarz(ps);
    if vx <= 0.0 || vy <= 0.0 {
      return Undefined(s.n);
    }
    v := Quotient(s.n, cov, vx, vy);
  }

  lemma {:induction false} Counted(ps: seq<Pair>)
    ensures Totals(ps).n == |ps|
  {
    if ps != [] { Counted(ps[..|ps| - 1]); }
  }

  lemma Spread(x: real, y: real, a: real, b: real)
    ensures Product(x - a, y - b) == Product(x, y) - Product(a, y) - Product(b, x) + Product(a, b)
  {
  }

  lemma {:induction false} CentredIs(ps: seq<Pair>, a: real, b: real)
    ensures Centred(ps, a, b)
            == Totals(ps).sxy - Product(a, Totals(ps).sy) - Product(b, Totals(ps).sx) + Product(|ps| as real, Product(a, b))
  {
    if ps != [] {
      var init, p := ps[..|ps| - 1], ps[|ps| - 1];
      CentredIs(init, a, b);
      Spread(p.x, p.y, a, b);
      ProductSum(a, Totals(init).sy, p.y);
      ProductSum(b, Totals(init).sx, p.x);
      OneMore(|init| as real, Product(a, b));
      assert |ps| as real == |init| as real + 1.0;
    }
  }

  lemma OneMore(n: real, c: real)
    ensures Product(n + 1.0, c) == Product(n, c) + c
  {
  }

  lemma MeansCancel(n: nat, sx: real, sy: real, sxy: real)
    requires n > 0
    ensures var a, b := Mean(sx, n), Mean(sy, n);
            sxy - Product(a, sy) - Product(b, sx) + Product(n as real, Product(a, b)) == Corrected(sxy, sx, sy, n)
  {
    var m, a, b := n as real, Mean(sx, n), Mean(sy, n);
    assert sx == Product(m, a);
    assert Product(m, Product(a, b)) == Product(Product(m, a), b);
    assert Product(sx, b) == Product(b, sx);
    Quotients(sx, sy, m);
  }

  lemma Quotients(sx: real, sy: real, m: real)
    requires m > 0.0
    ensures Product(sx / m, sy) == sx * sy / m
  {
    var a := sx / m;
    assert sx == a * m;
    assert sx * sy == (a * sy) * m;
  }

  /** The covariance accumulated in one pass is the sum of products of deviations from the means. */
  lemma CovarianceIs(ps: seq<Pair>, t: Sums)
    requires ps != [] && t == Totals(ps)
    ensures Covariance(ps) == Corrected(t.sxy, t.sx, t.sy, |ps|)
  {
    CentredIs(ps, Mean(t.sx, |ps|), Mean(t.sy, |ps|));
    MeansCancel(|ps|, t.sx, t.sy, t.sxy);
  }

  lemma {:induction false} DoubledTotals(ps: seq<Pair>)
    ensures Totals(Doubled(ps)) == Sums(Totals(ps).n, Totals(ps).sx, Totals(ps).sx, Totals(ps).sxx, Totals(ps).sxx, Totals(ps).sxx)
  {
    if ps != [] {
      DoubledTotals(ps[..|ps| - 1]);
      assert Doubled(ps)[..|ps| - 1] == Doubled(ps[..|ps| - 1]);
    }
  }

  lemma {:induction false} SwappedTotals(ps: seq<Pair>)
    ensures Totals(Swapped(ps)) == Sums(Totals(ps).n, Totals(ps).sy, Totals(ps).sx, Totals(ps).syy, Totals(ps).sxx, Totals(ps).sxy)
  {
    if ps != [] {
      SwappedTotals(ps[..|ps| - 1]);
      assert Swapped(ps)[..|ps| - 1] == Swapped(ps[..|ps| - 1]);
    }
  }

  /** All three one-pass figures are the two-pass ones. */
  lemma OnePass(ps: seq<Pair>, t: Sums)
    requires ps != [] && t == Totals(ps)
    ensures Corrected(t.sxy, t.sx, t.sy, |ps|) == Covariance(ps)
    ensures Corrected(t.sxx, t.sx, t.sx, |ps|) == Covariance(Doubled(ps))
    ensures Corrected(t.syy, t.sy, t.sy, |ps|) == Covariance(Doubled(Swapped(ps)))
  {
    CovarianceIs(ps, t);
    DoubledTotals(ps);
    CovarianceIs(Doubled(ps), Sums(t.n, t.sx, t.sx, t.sxx, t.sxx, t.sxx));
    SwappedTotals(ps);
    DoubledTotals(Swapped(ps));
    CovarianceIs(Doubled(Swapped(ps)), Sums(t.n, t.sy, t.sy, t.syy, t.syy, t.syy));
  }

  // ---- Cauchy-Schwarz, from a sum of squares that is never negative

  function SquareX(ps: seq<Pair>, a: real): real {
    if ps == [] then 0.0 else SquareX(ps[..|ps| - 1], a) + Product(ps[|ps| - 1].x - a, ps[|ps| - 1].x - a)
  }

  function SquareY(ps: seq<Pair>, b: real): real {
    if ps == [] then 0.0 else SquareY(ps[..|ps| - 1], b) + Product(ps[|ps| - 1].y - b, ps[|ps| - 1].y - b)
  }

  lemma Positive(u: real, w: real)
    requires u > 0.0 && w > 0.0
    ensures Product(u, w) > 0.0
  {
    assert u * w > 0.0;
  }

  lemma Negated(u: real)
    ensures Product(-u, -u) == Product(u, u)
  {
    assert (-u) * (-u) == u * u;
  }

  lemma Square(u: real)
    ensures Product(u, u) >= 0.0
    ensures Product(u, u) == 0.0 ==> u == 0.0
  {
    if u > 0.0 {
      Positive(u, u);
    } else if u < 0.0 {
      Positive(-u, -u);
      Negated(u);
    }
  }

  lemma {:induction false} SquaresNonNegative(ps: seq<Pair>, a: real, b: real)
    ensures SquareX(ps, a) >= 0.0 && SquareY(ps, b) >= 0.0
    ensures SquareX(ps, a) == 0.0 ==> Centred(ps, a, b) == 0.0
  {
    if ps != [] {
      var init, p := ps[..|ps| - 1], ps[|ps| - 1];
      SquaresNonNegative(init, a, b);
      Square(p.x - a);
      Square(p.y - b);
    }
  }

  lemma DifferenceSquared(t: real, u: real, w: real)
    ensures Product(t * t, Product(u, u)) - Product(2.0 * t, Product(u, w)) + Product(w, w) >= 0.0
  {
    var d := t * u - w;
    assert d * d == t * t * (u * u) - 2.0 * t * (u * w) + w * w;
    Square(d);
  }

  lemma {:induction false} QuadraticNonNegative(ps: seq<Pair>, a: real, b: real, t: real)
    ensures Product(t * t, SquareX(ps, a)) - Product(2.0 * t, Centred(ps, a, b)) + SquareY(ps, b) >= 0.0
  {
    if ps != [] {
      var init, p := ps[..|ps| - 1], ps[|ps| - 1];
      QuadraticNonNegative(init, a, b, t);
      DifferenceSquared(t, p.x - a, p.y - b);
      ProductSum(t * t, SquareX(init, a), Product(p.x - a, p.x - a));
      ProductSum(2.0 * t, Centred(init, a, b), Product(p.x - a, p.y - b));
    }
  }

  lemma Discriminant(sx: real, c: real, sy: real)
    requires sx > 0.0
    requires var t := c / sx; Product(t * t, sx) - Product(2.0 * t, c) + sy >= 0.0
    ensures Product(c, c) <= Product(sx, sy)
  {
    var t := c / sx;
    assert c == t * sx;
    assert t * t * sx == t * c by { assert t * t * sx == t * (t * sx); }
    assert sy >= t * c;
    assert sx * sy >= sx * (t * c);
    assert sx * (t * c) == c * c by { assert sx * (t * c) == (t * sx) * c; }
  }

  lemma {:induction false} DoubledCentred(ps: seq<Pair>, a: real)
    ensures Centred(Doubled(ps), a, a) == SquareX(ps, a)
  {
    if ps != [] {
      DoubledCentred(ps[..|ps| - 1], a);
      assert Doubled(ps)[..|ps| - 1] == Doubled(ps[..|ps| - 1]);
    }
  }

  lemma {:induction false} SwappedSquare(ps: seq<Pair>, b: real)
    ensures SquareX(Swapped(ps), b) == SquareY(ps, b)
  {
    if ps != [] {
      SwappedSquare(ps[..|ps| - 1], b);
      assert Swapped(ps)[..|ps| - 1] == Swapped(ps[..|ps| - 1]);
    }
  }

  /** Variances are never negative, and the squared covariance is at most their product. */
  lemma CauchySchwarz(ps: seq<Pair>)
    requires ps != []
    ensures var cov, vx, vy := Covariance(ps), Covariance(Doubled(ps)), Covariance(Doubled(Swapped(ps)));
            vx >= 0.0 && vy >= 0.0 && Product(cov, cov) <= Product(vx, vy)
  {
    var a, b := Mean(Totals(ps).sx, |ps|), Mean(Totals(ps).sy, |ps|);
    DoubledTotals(ps);
    SwappedTotals(ps);
    DoubledTotals(Swapped(ps));
    DoubledCentred(ps, a);
    DoubledCentred(Swapped(ps), b);
    SwappedSquare(ps, b);
    SquaresNonNegative(ps, a, b);
    Bounded(ps, a, b);
  }

  lemma Bounded(ps: seq<Pair>, a: real, b: real)
    ensures Product(Centred(ps, a, b), Centred(ps, a, b)) <= Product(SquareX(ps, a), SquareY(ps, b))
  {
    SquaresNonNegative(ps, a, b);
    if SquareX(ps, a) == 0.0 {
      assert Product(0.0, SquareY(ps, b)) == 0.0;
    } else {
      QuadraticNonNegative(ps, a, b, Centred(ps, a, b) / SquareX(ps, a));
      Discriminant(SquareX(ps, a), Centred(ps, a, b), SquareY(ps, b));
    }
  }

  // ---- sampling onto the grid: last observation carried forward

  const STEP_NS: int := 100 * 1000000
  const STALE_NS: int := 10 * 1000000000

  /** How many observations, from the first, are no later than t. */
  function Prefix(times: seq<int>, t: int): (j: nat)
    ensures j <= |times| && (forall k :: 0 <= k < j ==> times[k] <= t) && (j < |times| ==> times[j] > t)
  {
    if times == [] || times[0] > t then 0 else 1 + Prefix(times[1..], t)
  }

  function Sampled(times: seq<int>, values: seq<real>, t: int): Option<real>
    requires |times| == |values|
  {
    var j := Prefix(times, t);
    if j > 0 && t - times[j - 1] <= STALE_NS then Some(values[j - 1]) else None
  }

  lemma PrefixUnique(times: seq<int>, t: int, j: nat)
    requires j <= |times| && (forall k :: 0 <= k < j ==> times[k] <= t) && (j < |times| ==> times[j] > t)
    ensures Prefix(times, t) == j
  {
  }

  /** The second index of the sweep. */
  method Advance(times: seq<int>, from: nat, t: int) returns (j: nat)
    requires from <= |times| && forall k :: 0 <= k < from ==> times[k] <= t
    ensures j == Prefix(times, t)
  {
    j := from;
    while j < |times| && times[j] <= t
      invariant j <= |times| && forall k :: 0 <= k < j ==> times[k] <= t
    {
      j := j + 1;
    }
    PrefixUnique(times, t, j);
  }

  method LocfGrid(times: seq<int>, values: seq<real>, gridStart: int, n: nat) returns (out: array<Option<real>>)
    requires |times| == |values|
    ensures fresh(out) && out.Length == n
    ensures forall i :: 0 <= i < n ==> out[i] == Sampled(times, values, gridStart + i * STEP_NS)
  {
    out := new Option<real>[n](_ => None);
    var j := 0;
    for i := 0 to n
      invariant 0 <= j <= |times| && forall k :: 0 <= k < j ==> times[k] <= gridStart + i * STEP_NS
      invariant forall k :: i <= k < n ==> out[k] == None
      invariant forall k :: 0 <= k < i ==> out[k] == Sampled(times, values, gridStart + k * STEP_NS)
    {
      var t := gridStart + i * STEP_NS;
      j := Advance(times, j, t);
      if j > 0 && t - times[j - 1] <= STALE_NS {
        out[i] := Some(values[j - 1]);
      }
    }
  }

  /** With observations in time order, a sample is the latest one at or before its time, unless that is stale. */
  lemma SampleIsLatest(times: seq<int>, values: seq<real>, t: int, k: nat)
    requires |times| == |values| && k < |times|
    requires forall i, j :: 0 <= i <= j < |times| ==> times[i] <= times[j]
    requires times[k] <= t && (k + 1 < |times| ==> times[k + 1] > t)
    ensures Sampled(times, values, t) == if t - times[k] <= STALE_NS then Some(values[k]) else None
  {
    PrefixUnique(times, t, k + 1);
  }
}
