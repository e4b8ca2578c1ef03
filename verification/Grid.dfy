/** Option values, and the lot and tick grids on which the bot's float tolerances are harmless. */
module Grid {

  datatype Option<+T> = None | Some(value: T)

  /** The size tolerance (1e-9) and the price tolerance (1e-12) written in the source. */
  const SIZE_TOL: real := 0.000000001
  const PRICE_TOL: real := 0.000000000001

  /** Sizes are traded in micro-shares, prices in multiples of a hundredth of a cent. */
  const LOT: real := 0.000001
  const TICK: real := 0.0001

  function Min(x: real, y: real): real {
    if x <= y then x else y
  }

  function Max(x: real, y: real): real {
    if x <= y then y else x
  }

  function Product(x: real, y: real): real {
    x * y
  }

  lemma ProductMonotone(x: real, y: real, z: real)
    requires x <= y && z >= 0.0
    ensures Product(x, z) <= Product(y, z)
  {
  }

  lemma ProductSum(p: real, x: real, y: real)
    ensures Product(p, x + y) == Product(p, x) + Product(p, y)
  {
  }

  lemma ProductGrows(p: real, x: real, y: real)
    requires p >= 0.0 && x <= y
    ensures Product(p, x) <= Product(p, y)
  {
  }

  function Times(n: int, unit: real): real {
    n as real * unit
  }

  ghost predicate Multiple(x: real, unit: real) {
    exists n: int :: x == Times(n, unit)
  }

  ghost predicate OnLot(x: real) {
    Multiple(x, LOT)
  }

  ghost predicate OnTick(x: real) {
    Multiple(x, TICK)
  }

  lemma MultipleDifference(x: real, y: real, unit: real)
    requires Multiple(x, unit) && Multiple(y, unit)
    ensures Multiple(x - y, unit)
  {
    var n: int :| x == Times(n, unit);
    var m: int :| y == Times(m, unit);
    assert x - y == Times(n - m, unit);
  }

  lemma MultipleSum(x: real, y: real, unit: real)
    requires Multiple(x, unit) && Multiple(y, unit)
    ensures Multiple(x + y, unit)
  {
    var n: int :| x == Times(n, unit);
    var m: int :| y == Times(m, unit);
    assert x + y == Times(n + m, unit);
  }

  lemma ZeroIsMultiple(unit: real)
    ensures Multiple(0.0, unit)
  {
    assert 0.0 == Times(0, unit);
  }

  /** On the lot grid "within the size tolerance" and "equal" are the same thing. */
  lemma LotGap(x: real)
    requires OnLot(x) && x > 0.0
    ensures x > SIZE_TOL
  {
    var n: int :| x == Times(n, LOT);
    assert n >= 1;
  }

  /** On the tick grid the price tolerance never lets a worse price through. */
  lemma TickGap(p: real, q: real)
    requires OnTick(p) && OnTick(q) && p <= q + PRICE_TOL
    ensures p <= q
  {
    MultipleDifference(p, q, TICK);
    var n: int :| p - q == Times(n, TICK);
    assert n <= 0;
  }
}
