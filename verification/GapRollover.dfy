/** A rollover in which the boundary of the first window is captured late: the second window passes without a print,
    and only a print of it that arrives in the third settles the first. */
module GapRollover {
  import opened Grid
  import opened KCapture
  import opened Newest
  import opened Sessions
  import opened Rollover
  import opened RolloverLate

  /** Prints of the first window, of the third, then, late, of the second, and of the fourth. */
  datatype Gap = Gap(a: OraclePrint, c: OraclePrint, b: OraclePrint, e: OraclePrint)

  /** Both windows that are traded resolve down. */
  predicate GapOk(g: Gap) {
    && WindowOf(g.a, 300) == 0 && WindowOf(g.b, 300) == 300 && WindowOf(g.c, 300) == 600 && WindowOf(g.e, 300) == 900
    && g.b.value < g.a.value && g.e.value < g.c.value
  }

  function First(g: Gap, state: SessionState): Window {
    Window(0, 300, state, Some(CaptureOf(g.a)), None, None)
  }

  function Second(state: SessionState): Window {
    Window(300, 600, state, None, None, None)
  }

  function Third(k: Option<Capture>, state: SessionState): Window {
    Window(600, 900, state, k, None, None)
  }

  /** A window that resolved down at a price. */
  function Lost(w: Window, price: real): Window {
    w.(state := Done, outcome := Some(Ledger.Down), closePrice := Some(price))
  }

  // ---- the states of the rollover, from the first window's trading on

  function FirstTrades(g: Gap): Roll {
    Roll([First(g, Active)], Some(0), None, map[], [g.a], Idle, 0.0, false, {0})
  }

  function FirstTearing(g: Gap): Roll {
    Roll([First(g, Closing)], Some(0), None, map[], [g.a], InTeardown, 300.0, false, {0})
  }

  function FirstClosed(g: Gap): Roll {
    Roll([First(g, Settling)], Some(0), None, map[300 := 0], [g.a], InSnapshot, 300.0, false, {0})
  }

  function FirstWaits(g: Gap): Roll {
    FirstClosed(g).(current := None, at := InCreation)
  }

  function SecondOpen(g: Gap): Roll {
    Roll([First(g, Settling), Second(Active)], Some(1), None, map[300 := 0], [g.a], Idle, 300.0, false, {0, 1})
  }

  function SecondTearing(g: Gap): Roll {
    Roll([First(g, Settling), Second(Closing)], Some(1), None, map[300 := 0], [g.a], InTeardown, 600.0, false, {0, 1})
  }

  function SecondClosed(g: Gap): Roll {
    Roll([First(g, Settling), Second(Settling)], Some(1), None, map[300 := 0, 600 := 1], [g.a], InSnapshot, 600.0, false, {0, 1})
  }

  function SecondWaits(g: Gap): Roll {
    SecondClosed(g).(current := None, at := InCreation)
  }

  function ThirdOpen(g: Gap): Roll {
    Roll([First(g, Settling), Second(Settling), Third(None, Active)], Some(2), None, map[300 := 0, 600 := 1], [g.a],
         Idle, 600.0, false, {0, 1, 2})
  }

  /** The third window has its Price to Beat; the second, which never had one, is dropped. */
  function ThirdTrades(g: Gap): Roll {
    Roll([First(g, Settling), Second(Settling), Third(Some(CaptureOf(g.c)), Active)], Some(2), None, map[300 := 0], [g.a, g.c],
         Idle, 600.0, false, {0, 1, 2})
  }

  /** The late print settles the first window. */
  function FirstLost(g: Gap): Roll {
    Roll([Lost(First(g, Settling), g.b.value), Second(Settling), Third(Some(CaptureOf(g.c)), Active)], Some(2), None, map[],
         [g.a, g.c, g.b], Idle, 600.0, false, {0, 1, 2})
  }

  function ThirdTearing(g: Gap): Roll {
    Roll([Lost(First(g, Settling), g.b.value), Second(Settling), Third(Some(CaptureOf(g.c)), Closing)], Some(2), None, map[],
         [g.a, g.c, g.b], InTeardown, 900.0, false, {0, 1, 2})
  }

  function ThirdClosed(g: Gap): Roll {
    Roll([Lost(First(g, Settling), g.b.value), Second(Settling), Third(Some(CaptureOf(g.c)), Settling)], Some(2), None,
         map[900 := 2], [g.a, g.c, g.b], InSnapshot, 900.0, false, {0, 1, 2})
  }

  function ThirdLost(g: Gap): Roll {
    Roll([Lost(First(g, Settling), g.b.value), Second(Settling), Lost(Third(Some(CaptureOf(g.c)), Settling), g.e.value)], Some(2),
         None, map[], [g.a, g.c, g.b, g.e], InSnapshot, 900.0, false, {0, 1, 2})
  }

  // ---- captures

  lemma GapStores(g: Gap)
    requires GapOk(g)
    ensures AfterPrints([g.a], 300) == map[0 := CaptureOf(g.a)]
    ensures AfterPrints([g.a, g.c], 300) == map[0 := CaptureOf(g.a), 600 := CaptureOf(g.c)]
    ensures AfterPrints([g.a, g.c, g.b], 300) == map[0 := CaptureOf(g.a), 600 := CaptureOf(g.c), 300 := CaptureOf(g.b)]
  {
    var a, c, b := g.a, g.c, g.b;
    assert [a][..0] == [] && [a, c][..1] == [a] && [a, c, b][..2] == [a, c];
    assert AfterPrints([], 300) == map[];
    var one := map[0 := CaptureOf(a)];
    assert |one.Keys| == 1 by { assert one.Keys == {0}; }
    var two := one[600 := CaptureOf(c)];
    assert |two.Keys| == 2 by { assert two.Keys == {0, 600}; }
    var three := two[300 := CaptureOf(b)];
    assert |three.Keys| == 3 by { assert three.Keys == {0, 600, 300}; }
  }

  lemma SnapshotIsRecent(t: Timing, g: Gap)
    requires t == FIVE_MINUTES && GapOk(g)
    ensures Lawful(t, FirstClosed(g), Resume(true)) && Lawful(t, SecondClosed(g), Resume(true))
  {
    assert [g.a][..0] == [] && Seen([], 300) == {} && Seen([g.a], 300) == {0};
    assert Above({0}, 300) == {} && Above({0}, 600) == {};
  }

  // ---- steps

  lemma FirstSteps(t: Timing, g: Gap)
    requires t == FIVE_MINUTES
    ensures Next(t, FirstTrades(g), Manage(300.0)) == FirstTearing(g)
    ensures Next(t, FirstTearing(g), Resume(true)) == FirstClosed(g)
  {
    assert FirstTrades(g).windows[0 := First(g, Closing)] == FirstTearing(g).windows;
    assert FirstTearing(g).windows[0 := First(g, Settling)] == FirstClosed(g).windows;
  }

  lemma NoBoundaryYet(t: Timing, g: Gap, r: Roll)
    requires t == FIVE_MINUTES && GapOk(g) && r.prints == [g.a]
    ensures GetK(t, r, 300) == None && GetK(t, r, 600) == None
  {
    GapStores(g);
  }

  lemma FirstPasses(t: Timing, g: Gap)
    requires t == FIVE_MINUTES && GapOk(g)
    ensures Next(t, FirstClosed(g), Resume(true)) == FirstWaits(g)
  {
    NoBoundaryYet(t, g, FirstClosed(g));
  }

  lemma SecondOpens(t: Timing, g: Gap)
    requires t == FIVE_MINUTES && GapOk(g)
    ensures Next(t, FirstWaits(g), Resume(true)) == SecondOpen(g)
  {
    var r, q := FirstWaits(g), SecondOpen(g);
    NoBoundaryYet(t, g, r);
    assert q.windows == r.windows + [Second(Active)] && q.wasCurrent == r.wasCurrent + {|r.windows|};
    OpensAt(t, r, 300, Second(Active), q);
  }

  lemma OpensAt(t: Timing, r: Roll, ws: int, w: Window, q: Roll)
    requires t == FIVE_MINUTES && r.at == InCreation && IdsOk(r) && !r.raised && r.now == ws as real && ws % 300 == 0
    requires w == Window(ws, ws + 300, Active, GetK(t, r, ws), None, None)
    requires q == r.(windows := q.windows, current := Some(|r.windows|), next := None, wasCurrent := q.wasCurrent, at := Idle)
    requires q.windows == r.windows + [w] && q.wasCurrent == r.wasCurrent + {|r.windows|}
    ensures Next(t, r, Resume(true)) == q
  {
    WindowContains(ws, 300, ws);
    Creates(t, r, ws, w, q);
  }

  lemma SecondSteps(t: Timing, g: Gap)
    requires t == FIVE_MINUTES && GapOk(g)
    ensures Next(t, SecondOpen(g), Manage(600.0)) == SecondTearing(g)
    ensures Next(t, SecondTearing(g), Resume(true)) == SecondClosed(g)
    ensures Next(t, SecondClosed(g), Resume(true)) == SecondWaits(g)
  {
    NoBoundaryYet(t, g, SecondClosed(g));
    assert SecondOpen(g).windows[1 := Second(Closing)] == SecondTearing(g).windows;
    assert SecondTearing(g).windows[1 := Second(Settling)] == SecondClosed(g).windows;
  }

  lemma ThirdOpens(t: Timing, g: Gap)
    requires t == FIVE_MINUTES && GapOk(g)
    ensures Next(t, SecondWaits(g), Resume(true)) == ThirdOpen(g)
  {
    var r, q := SecondWaits(g), ThirdOpen(g);
    NoBoundaryYet(t, g, r);
    assert q.windows == r.windows + [Third(None, Active)] && q.wasCurrent == r.wasCurrent + {|r.windows|};
    OpensAt(t, r, 600, Third(None, Active), q);
  }

  lemma ThirdGetsK(t: Timing, g: Gap)
    requires t == FIVE_MINUTES && GapOk(g)
    ensures Next(t, ThirdOpen(g), Oracle(g.c)) == ThirdTrades(g)
  {
    GapStores(g);
    assert ThirdOpen(g).windows[2 := Third(Some(CaptureOf(g.c)), Active)] == ThirdTrades(g).windows;
    assert ThirdOpen(g).settling - {600} == map[300 := 0];
    assert [g.a] + [g.c] == [g.a, g.c];
  }

  lemma LatePrintSettles(t: Timing, g: Gap)
    requires t == FIVE_MINUTES && GapOk(g)
    ensures Next(t, ThirdTrades(g), Oracle(g.b)) == FirstLost(g)
  {
    GapStores(g);
    assert ThirdTrades(g).windows[0 := Lost(First(g, Settling), g.b.value)] == FirstLost(g).windows;
    assert ThirdTrades(g).settling - {300} == map[];
    assert [g.a, g.c] + [g.b] == [g.a, g.c, g.b];
  }

  lemma ThirdSteps(t: Timing, g: Gap)
    requires t == FIVE_MINUTES && GapOk(g)
    ensures Next(t, FirstLost(g), Manage(900.0)) == ThirdTearing(g)
    ensures Next(t, ThirdTearing(g), Resume(true)) == ThirdClosed(g)
  {
    assert FirstLost(g).windows[2 := Third(Some(CaptureOf(g.c)), Closing)] == ThirdTearing(g).windows;
    assert ThirdTearing(g).windows[2 := Third(Some(CaptureOf(g.c)), Settling)] == ThirdClosed(g).windows;
    assert map[][900 := 2] == map[900 := 2];
  }

  lemma ThirdSettles(t: Timing, g: Gap)
    requires t == FIVE_MINUTES && GapOk(g)
    ensures Next(t, ThirdClosed(g), Oracle(g.e)) == ThirdLost(g)
  {
    GapStores(g);
    assert ThirdClosed(g).windows[2 := Lost(Third(Some(CaptureOf(g.c)), Settling), g.e.value)] == ThirdLost(g).windows;
    assert ThirdClosed(g).settling - {900} == map[];
    assert [g.a, g.c, g.b] + [g.e] == [g.a, g.c, g.b, g.e];
  }

  /** Such prints exist. */
  lemma SuchGap(x: real, y: real)
    requires y < x
    ensures GapOk(Gap(OraclePrint(x, 1000), OraclePrint(x, 601000), OraclePrint(y, 301000), OraclePrint(y, 901000)))
  {
    WindowContains(1, 300, 0);
    WindowContains(301, 300, 300);
    WindowContains(601, 300, 600);
    WindowContains(901, 300, 900);
  }
}
