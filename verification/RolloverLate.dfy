/** A run in which a window closes at one price and the next one is judged by another. */
module RolloverLate {
  import opened Grid
  import opened KCapture
  import opened Newest
  import opened Sessions
  import opened Rollover
  import opened RolloverOrder

  const FIVE_MINUTES: Timing := Timing(300, 0.0)

  /** A print inside the first window, one after its close, and one that arrives later but is stamped earlier. */
  predicate Overtaken(a: OraclePrint, b: OraclePrint, c: OraclePrint) {
    WindowOf(a, 300) == 0 && WindowOf(b, 300) == WindowOf(c, 300) == 300 && c.ts < b.ts
  }

  function ToSettlement(a: OraclePrint, b: OraclePrint): seq<Step> {
    [Manage(0.0), Resume(true), Oracle(a), Manage(300.0), Resume(true), Oracle(b)]
  }

  function ToLatePrint(c: OraclePrint): seq<Step> {
    [Resume(true), Resume(true), Oracle(c)]
  }

  function CaptureOf(p: OraclePrint): Capture {
    Capture(p.value, p.ts)
  }

  /** The first session trades, with its Price to Beat. */
  function Trades(a: OraclePrint): Roll {
    Roll([Window(0, 300, Active, Some(CaptureOf(a)), None, None)], Some(0), None, map[], [a], Idle, 0.0, false, {0})
  }

  function Tearing(a: OraclePrint): Roll {
    Roll([Window(0, 300, Closing, Some(CaptureOf(a)), None, None)], Some(0), None, map[], [a], InTeardown, 300.0, false, {0})
  }

  /** It has closed and waits for the snapshot. */
  function Closed(a: OraclePrint): Roll {
    Roll([Window(0, 300, Settling, Some(CaptureOf(a)), None, None)], Some(0), None, map[300 := 0], [a], InSnapshot, 300.0, false, {0})
  }

  function Resolved(a: OraclePrint, b: OraclePrint): Window {
    Window(0, 300, Settling, Some(CaptureOf(a)), None, None).Resolve(b.value).(state := Done)
  }

  /** The first print after the close settles it. */
  function Settled(a: OraclePrint, b: OraclePrint): Roll {
    Roll([Resolved(a, b)], Some(0), None, map[], [a, b], InSnapshot, 300.0, false, {0})
  }

  function Following(cap: Capture): Window {
    Window(300, 600, Active, Some(cap), None, None)
  }

  /** The second session trades, judged at first by the print that settled the first. */
  function Followed(a: OraclePrint, b: OraclePrint): Roll {
    Roll([Resolved(a, b), Following(CaptureOf(b))], Some(1), None, map[], [a, b], Idle, 300.0, false, {0, 1})
  }

  function Judged(a: OraclePrint, b: OraclePrint, c: OraclePrint): Roll {
    Roll([Resolved(a, b), Following(CaptureOf(c))], Some(1), None, map[], [a, b, c], Idle, 300.0, false, {0, 1})
  }

  lemma Stores(a: OraclePrint, b: OraclePrint)
    requires WindowOf(a, 300) == 0 && WindowOf(b, 300) == 300
    ensures AfterPrints([a], 300) == map[0 := CaptureOf(a)]
    ensures AfterPrints([a, b], 300) == map[0 := CaptureOf(a), 300 := CaptureOf(b)]
  {
    assert [a][..0] == [] && [a, b][..1] == [a];
    assert AfterPrints([], 300) == map[];
    var one := map[0 := CaptureOf(a)];
    assert |one.Keys| == 1 by { assert one.Keys == {0}; }
    var two := one[300 := CaptureOf(b)];
    assert |two.Keys| == 2 by { assert two.Keys == {0, 300}; }
  }

  /** What creating and installing a session amounts to. */
  lemma OpensNew(t: Timing, r: Roll, ws: int)
    requires t.length > 0
    ensures var k, n := GetK(t, r, ws), |r.windows|;
            Install(t, Created(t, r, ws), n, ws)
            == r.(windows := r.windows + [Window(ws, ws + t.length, Active, k, None, None)],
                  current := Some(n), next := None, wasCurrent := r.wasCurrent + {n})
  {
    var k, n := GetK(t, r, ws), |r.windows|;
    var w := NewWindow(ws, ws + t.length).(k := k);
    assert (r.windows + [w])[n := w.(state := Active)] == r.windows + [w.(state := Active)];
    var all := r.windows + [w.(state := Active)];
    assert all[n := all[n]] == all;
  }

  lemma Creates(t: Timing, r: Roll, ws: int, w: Window, q: Roll)
    requires t.length > 0 && t.prefetch == 0.0 && r.at == InCreation && IdsOk(r) && !r.raised
    requires ws == WindowStart(r.now.Floor, t.length) && r.now < (ws + t.length) as real
    requires w == Window(ws, ws + t.length, Active, GetK(t, r, ws), None, None)
    requires q == r.(windows := q.windows, current := Some(|r.windows|), next := None, wasCurrent := q.wasCurrent, at := Idle)
    requires q.windows == r.windows + [w] && q.wasCurrent == r.wasCurrent + {|r.windows|}
    ensures Next(t, r, Resume(true)) == q
  {
    OpensNew(t, r, ws);
    var created := Install(t, Created(t, r, ws), |r.windows|, ws).(at := Idle);
    assert Next(t, r, Resume(true)) == Prefetch(t, created);
    assert Prefetch(t, created) == created;
  }

  lemma FirstStarts(t: Timing)
    requires t == FIVE_MINUTES
    ensures Next(t, START, Manage(0.0)) == START.(at := InCreation)
  {
  }

  lemma FirstOpens(t: Timing, r: Roll)
    requires t == FIVE_MINUTES && r == START.(at := InCreation)
    ensures Next(t, r, Resume(true)) == Opened()
  {
    assert AfterPrints(r.prints, 300) == map[];
    Creates(t, r, 0, NewWindow(0, 300).(state := Active), Opened());
  }

  function Opened(): Roll {
    Roll([NewWindow(0, 300).(state := Active)], Some(0), None, map[], [], Idle, 0.0, false, {0})
  }

  lemma FirstTrades(t: Timing, a: OraclePrint)
    requires t == FIVE_MINUTES && WindowOf(a, 300) == 0
    ensures Next(t, Opened(), Oracle(a)) == Trades(a)
  {
    assert [] + [a] == [a];
  }

  lemma FirstCloses(t: Timing, a: OraclePrint)
    requires t == FIVE_MINUTES
    ensures Next(t, Trades(a), Manage(300.0)) == Tearing(a) && Next(t, Tearing(a), Resume(true)) == Closed(a)
  {
  }

  lemma FirstSettles(t: Timing, a: OraclePrint, b: OraclePrint)
    requires t == FIVE_MINUTES && WindowOf(a, 300) == 0 && WindowOf(b, 300) == 300
    ensures Next(t, Closed(a), Oracle(b)) == Settled(a, b)
  {
    Stores(a, b);
  }

  lemma CloseIsRecent(t: Timing, a: OraclePrint, b: OraclePrint)
    requires t == FIVE_MINUTES && WindowOf(a, 300) == 0 && WindowOf(b, 300) == 300
    ensures Lawful(t, Settled(a, b), Resume(true))
  {
    assert [a][..0] == [] && [a, b][..1] == [a];
    assert Seen([], 300) == {} && Seen([a], 300) == {0} && Seen([a, b], 300) == {0, 300};
    assert Above({0, 300}, 300) == {};
  }

  lemma SecondOpens(t: Timing, a: OraclePrint, b: OraclePrint)
    requires t == FIVE_MINUTES && WindowOf(a, 300) == 0 && WindowOf(b, 300) == 300
    ensures Next(t, Settled(a, b), Resume(true)) == Settled(a, b).(current := None, at := InCreation)
  {
    Stores(a, b);
  }

  lemma SecondK(t: Timing, r: Roll, a: OraclePrint, b: OraclePrint)
    requires t == FIVE_MINUTES && WindowOf(a, 300) == 0 && WindowOf(b, 300) == 300 && r.prints == [a, b]
    requires r.now == 300.0
    ensures GetK(t, r, 300) == Some(CaptureOf(b)) && WindowStart(r.now.Floor, t.length) == 300
  {
    Stores(a, b);
    WindowContains(300, 300, 300);
  }

  lemma SecondIs(a: OraclePrint, b: OraclePrint)
    ensures var r, q, w := Settled(a, b), Followed(a, b), Following(CaptureOf(b));
            q.windows == r.windows + [w] && q.wasCurrent == r.wasCurrent + {|r.windows|}
  {
  }

  lemma SecondTrades(t: Timing, r: Roll, a: OraclePrint, b: OraclePrint)
    requires t == FIVE_MINUTES && r == Settled(a, b).(current := None, at := InCreation)
    requires GetK(t, r, 300) == Some(CaptureOf(b)) && WindowStart(r.now.Floor, t.length) == 300
    ensures Next(t, r, Resume(true)) == Followed(a, b)
  {
    SecondIs(a, b);
    Creates(t, r, 300, Following(CaptureOf(b)), Followed(a, b));
  }

  lemma LatePrint(t: Timing, a: OraclePrint, b: OraclePrint, c: OraclePrint)
    requires t == FIVE_MINUTES && Overtaken(a, b, c)
    ensures Next(t, Followed(a, b), Oracle(c)) == Judged(a, b, c)
  {
    Stores(a, b);
  }

  lemma RunFirst(t: Timing, r: Roll, step: Step, rest: seq<Step>, q: Roll)
    requires t.length > 0 && Lawful(t, r, step) && Next(t, r, step) == q && LawfulRun(t, q, rest)
    ensures LawfulRun(t, r, [step] + rest) && Run(t, r, [step] + rest) == Run(t, q, rest)
  {
    assert ([step] + rest)[1..] == rest;
  }

  lemma RunThree(t: Timing, r: Roll, r1: Roll, r2: Roll, r3: Roll, s1: Step, s2: Step, s3: Step, rest: seq<Step>)
    requires t.length > 0 && Lawful(t, r, s1) && Lawful(t, r1, s2) && Lawful(t, r2, s3) && LawfulRun(t, r3, rest)
    requires Next(t, r, s1) == r1 && Next(t, r1, s2) == r2 && Next(t, r2, s3) == r3
    ensures LawfulRun(t, r, [s1, s2, s3] + rest) && Run(t, r, [s1, s2, s3] + rest) == Run(t, r3, rest)
  {
    RunFirst(t, r2, s3, rest, r3);
    RunFirst(t, r1, s2, [s3] + rest, r2);
    RunFirst(t, r, s1, [s2] + ([s3] + rest), r1);
    assert [s1, s2, s3] + rest == [s1] + ([s2] + ([s3] + rest));
  }

  lemma Opens(t: Timing, a: OraclePrint, rest: seq<Step>)
    requires t == FIVE_MINUTES && WindowOf(a, 300) == 0 && LawfulRun(t, Trades(a), rest)
    ensures var steps := [Manage(0.0), Resume(true), Oracle(a)] + rest;
            LawfulRun(t, START, steps) && Run(t, START, steps) == Run(t, Trades(a), rest)
  {
    FirstStarts(t);
    FirstOpens(t, START.(at := InCreation));
    FirstTrades(t, a);
    RunThree(t, START, START.(at := InCreation), Opened(), Trades(a), Manage(0.0), Resume(true), Oracle(a), rest);
  }

  lemma Closes(t: Timing, a: OraclePrint, b: OraclePrint, rest: seq<Step>)
    requires t == FIVE_MINUTES && WindowOf(a, 300) == 0 && WindowOf(b, 300) == 300 && LawfulRun(t, Settled(a, b), rest)
    ensures var steps := [Manage(300.0), Resume(true), Oracle(b)] + rest;
            LawfulRun(t, Trades(a), steps) && Run(t, Trades(a), steps) == Run(t, Settled(a, b), rest)
  {
    FirstCloses(t, a);
    FirstSettles(t, a, b);
    RunThree(t, Trades(a), Tearing(a), Closed(a), Settled(a, b), Manage(300.0), Resume(true), Oracle(b), rest);
  }

  lemma Judges(t: Timing, a: OraclePrint, b: OraclePrint, c: OraclePrint, created: Roll)
    requires t == FIVE_MINUTES && Overtaken(a, b, c) && created == Settled(a, b).(current := None, at := InCreation)
    requires Next(t, Settled(a, b), Resume(true)) == created && Lawful(t, Settled(a, b), Resume(true))
    requires Next(t, created, Resume(true)) == Followed(a, b)
    ensures LawfulRun(t, Settled(a, b), ToLatePrint(c)) && Run(t, Settled(a, b), ToLatePrint(c)) == Judged(a, b, c)
  {
    SettlementSteps(a, b, ToLatePrint(c));
    LatePrint(t, a, b, c);
    RunThree(t, Settled(a, b), created, Followed(a, b), Judged(a, b, c), Resume(true), Resume(true), Oracle(c), []);
  }

  lemma SecondFollows(t: Timing, a: OraclePrint, b: OraclePrint, created: Roll)
    requires t == FIVE_MINUTES && WindowOf(a, 300) == 0 && WindowOf(b, 300) == 300
    requires created == Settled(a, b).(current := None, at := InCreation)
    ensures Next(t, Settled(a, b), Resume(true)) == created && Lawful(t, Settled(a, b), Resume(true))
    ensures Next(t, created, Resume(true)) == Followed(a, b)
  {
    SecondOpens(t, a, b);
    CloseIsRecent(t, a, b);
    SecondK(t, created, a, b);
    SecondTrades(t, created, a, b);
  }

  /** Six steps close the first window at the value of b; in three more c becomes the Price to Beat of the second
      window, and the first keeps its close price. */
  lemma CloseIsNotNextK(t: Timing, a: OraclePrint, b: OraclePrint, c: OraclePrint)
    requires t == FIVE_MINUTES && Overtaken(a, b, c)
    ensures var early, all := ToSettlement(a, b), ToSettlement(a, b) + ToLatePrint(c);
            && LawfulRun(t, START, all)
            && Run(t, START, early) == Settled(a, b) && Run(t, START, all) == Judged(a, b, c)
            && Judged(a, b, c).windows[0].closePrice == Some(b.value)
            && Judged(a, b, c).windows[1].k == Some(CaptureOf(c))
  {
    var created := Settled(a, b).(current := None, at := InCreation);
    SecondFollows(t, a, b, created);
    Judges(t, a, b, c, created);
    RunsOn(t, a, b, []);
    RunsOn(t, a, b, ToLatePrint(c));
    assert ToSettlement(a, b) + [] == ToSettlement(a, b);
  }

  lemma RunsOn(t: Timing, a: OraclePrint, b: OraclePrint, rest: seq<Step>)
    requires t == FIVE_MINUTES && WindowOf(a, 300) == 0 && WindowOf(b, 300) == 300 && LawfulRun(t, Settled(a, b), rest)
    ensures LawfulRun(t, START, ToSettlement(a, b) + rest)
    ensures Run(t, START, ToSettlement(a, b) + rest) == Run(t, Settled(a, b), rest)
  {
    SettlementSteps(a, b, rest);
    Closes(t, a, b, rest);
    Opens(t, a, [Manage(300.0), Resume(true), Oracle(b)] + rest);
  }

  lemma SettlementSteps(a: OraclePrint, b: OraclePrint, rest: seq<Step>)
    ensures ToSettlement(a, b) + rest
            == [Manage(0.0), Resume(true), Oracle(a)] + ([Manage(300.0), Resume(true), Oracle(b)] + rest)
    ensures rest + [] == rest
  {
  }

  /** Such prints exist: one second, 301 seconds and 300 seconds after the first window opens. */
  lemma SuchPrints(x: real, y: real, z: real)
    ensures Overtaken(OraclePrint(x, 1000), OraclePrint(y, 301000), OraclePrint(z, 300000))
  {
    WindowContains(1, 300, 0);
    WindowContains(301, 300, 300);
    WindowContains(300, 300, 300);
  }
}
