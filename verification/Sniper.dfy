/** The late-window sniper (strategy/sniper.py): one shot per window, with a bounded memory of past shots. */
module Sniper {
  import opened Grid
  import opened Orders
  import opened Exchange
  import opened Ledger
  import opened Newest
  import opened Risk

  /** ModeAConfig */
  datatype Mode = Mode(enabled: bool, pMin: real, maxPrice: real, minEdge: real, slippage: real)

  /** The ask side of BookTop. */
  datatype Top = Top(ask: Option<real>, askSize: real)

  /** What the sniper reads from its DecisionContext. */
  datatype Sight = Sight(meta: Meta, phase: Phase, pUp: Option<real>, feeRate: Option<real>, hasK: bool, up: Top, down: Top)

  /** Raise is the division by a zero ask. */
  datatype Verdict = Hold | Fire(intent: Intent) | Raise

  /** n is the whole number nearest to x, the even one of two that are equally near. */
  predicate Nearest(n: int, x: real) {
    -0.5 <= n as real - x <= 0.5 && (n as real - x == 0.5 || n as real - x == -0.5 ==> n % 2 == 0)
  }

  lemma NearestUnique(m: int, n: int, x: real)
    requires Nearest(m, x) && Nearest(n, x)
    ensures m == n
  {
  }

  /** Rounding to n whole units, halves to even. */
  function RoundHalfEven(x: real): (n: int)
    ensures Nearest(n, x)
  {
    var f := x.Floor;
    var rest := x - f as real;
    if rest < 0.5 || (rest == 0.5 && f % 2 == 0) then f else f + 1
  }

  /** SniperStrategy._size, in hundredths of a share. */
  function Hundredths(cfg: Config, price: real, visible: real): int
    requires price != 0.0
  {
    var byDepth := visible * cfg.depthParticipation;
    var byStake := cfg.stakeUsdc / price;
    var byCap := cfg.maxStakePerWindow / price;
    RoundHalfEven(Min(Min(byDepth, byStake), byCap) * 100.0)
  }

  function SizeFor(cfg: Config, price: real, visible: real): real
    requires price != 0.0
  {
    Hundredths(cfg, price, visible) as real / 100.0
  }

  /** The outcome to buy, if the model is confident enough about one. */
  function Target(mode: Mode, pUp: real): Option<Outcome> {
    if pUp >= mode.pMin then Some(Up) else if 1.0 - pUp >= mode.pMin then Some(Down) else None
  }

  /** edge_for_taker_buy, at the model's probability of the outcome. */
  function Edge(mode: Mode, pUp: real, outcome: Outcome, ask: real, rate: real): real {
    (if outcome == Up then pUp else 1.0 - pUp) - ask - FeePerShare(rate, ask) - mode.slippage
  }

  /** What the sniper would do in a window it has not fired in. */
  function Decide(mode: Mode, cfg: Config, s: Sight): Verdict {
    if !mode.enabled || s.phase != Armed || s.pUp.None? || s.feeRate.None? || !s.hasK then Hold
    else
      var target := Target(mode, s.pUp.value);
      if target.None? then Hold
      else
        var top := if target.value == Up then s.up else s.down;
        if top.ask.None? || top.askSize <= 0.0 || top.ask.value > mode.maxPrice then Hold
        else if Edge(mode, s.pUp.value, target.value, top.ask.value, s.feeRate.value) < mode.minEdge then Hold
        else if top.ask.value == 0.0 then Raise
        else
          var size := SizeFor(cfg, top.ask.value, top.askSize);
          if size <= 0.0 then Hold else Fire(Intent(target.value, Buy, top.ask.value, size, FAK))
  }

  /** The memory of past shots is cut back to the 32 newest windows when it outgrows 64. */
  function Remember(fired: set<int>, ws: int): set<int> {
    var all := fired + {ws};
    if |all| > 64 then Largest(all, 32) else all
  }

  /** Up to 64 windows are remembered; one more, and the 32 newest are left. */
  lemma RememberMeans(fired: set<int>, ws: int)
    ensures var all, kept := fired + {ws}, Remember(fired, ws);
            && kept <= all && (|all| <= 64 ==> kept == all)
            && (|all| > 64 ==> |kept| == 32 && forall w <- all, v <- kept :: w !in kept ==> w < v)
  {
  }

  /** One evaluation, as far as the memory is concerned: its window, and whether the sniper would fire in it. */
  datatype Look = Look(ws: int, fires: bool)

  /** The memory, and the windows shot in, after a sequence of evaluations. */
  datatype Record = Record(fired: set<int>, shots: seq<int>)

  function Watch(looks: seq<Look>): Record {
    if looks == [] then Record({}, []) else AfterLook(Watch(looks[..|looks| - 1]), looks[|looks| - 1])
  }

  function AfterLook(r: Record, l: Look): Record {
    if l.fires && l.ws !in r.fired then Record(Remember(r.fired, l.ws), r.shots + [l.ws]) else r
  }

  class SniperStrategy {
    const mode: Mode
    const cfg: Config
    var fired: set<int>
    ghost var looks: seq<Look>

    /** The memory is that of the evaluations so far. */
    ghost predicate Valid()
      reads this
    {
      fired == Watch(looks).fired
    }

    constructor (mode: Mode, cfg: Config)
      ensures Valid() && this.mode == mode && this.cfg == cfg && looks == []
    {
      this.mode, this.cfg, fired, looks := mode, cfg, {}, [];
    }

    method Evaluate(s: Sight) returns (v: Verdict)
      requires Valid()
      modifies this`fired, this`looks
      ensures Valid() && looks == old(looks) + [Look(s.meta.windowStart, Decide(mode, cfg, s).Fire?)]
      ensures v == if s.meta.windowStart in old(fired) then Hold else Decide(mode, cfg, s)
      ensures Watch(looks).shots == Watch(old(looks)).shots + if v.Fire? then [s.meta.windowStart] else []
    {
      v := Hold;
      if s.meta.windowStart !in fired {
        v := Judge(s);
        if v.Fire? {
          Note(s.meta.windowStart);
        }
      }
      ghost var before := looks;
      looks := before + [Look(s.meta.windowStart, Decide(mode, cfg, s).Fire?)];
      assert looks[..|before|] == before;
    }

    /** Everything evaluate looks at besides its memory. */
    method Judge(s: Sight) returns (v: Verdict)
      ensures v == Decide(mode, cfg, s)
    {
      if !mode.enabled || s.phase != Armed || s.pUp.None? || s.feeRate.None? || !s.hasK { return Hold; }
      var target := Target(mode, s.pUp.value);
      if target.None? { return Hold; }
      var outcome := target.value;
      var top := if outcome == Up then s.up else s.down;
      if top.ask.None? || top.askSize <= 0.0 { return Hold; }
      var ask := top.ask.value;
      if ask > mode.maxPrice { return Hold; }
      if Edge(mode, s.pUp.value, outcome, ask, s.feeRate.value) < mode.minEdge { return Hold; }
      if ask == 0.0 { return Raise; }
      var size := SizeFor(cfg, ask, top.askSize);
      v := if size <= 0.0 then Hold else Fire(Intent(outcome, Buy, ask, size, FAK));
    }

    method Note(ws: int)
      modifies this`fired
      ensures fired == Remember(old(fired), ws)
    {
      fired := fired + {ws};
      if |fired| > 64 {
        fired := Largest(fired, 32);
      }
    }
  }

  function Windows(shots: seq<int>): set<int> {
    set w | w in shots
  }

  /** What is remembered was fired, and any window forgotten is older than 32 remembered ones. */
  ghost predicate Remembers(r: Record) {
    && r.fired <= Windows(r.shots)
    && forall w <- r.shots :: w in r.fired || |Above(r.fired, w)| >= 32
  }

  lemma AboveGrows(s: set<int>, t: set<int>, w: int)
    requires s <= t
    ensures |Above(s, w)| <= |Above(t, w)|
  {
    assert Above(s, w) <= Above(t, w);
    SubsetSize(Above(s, w), Above(t, w));
  }

  lemma RememberStep(r: Record, ws: int)
    requires Remembers(r)
    ensures Remembers(Record(Remember(r.fired, ws), r.shots + [ws]))
  {
    var all, shots := r.fired + {ws}, r.shots + [ws];
    var kept := Remember(r.fired, ws);
    assert Windows(shots) == Windows(r.shots) + {ws};
    forall w | w in shots && w !in kept
      ensures |Above(kept, w)| >= 32
    {
      AboveGrows(r.fired, all, w);
      if |all| > 64 { DroppedHaveLarger(all, 32, w); }
    }
  }

  lemma {:induction false} WatchRemembers(looks: seq<Look>)
    ensures Remembers(Watch(looks))
  {
    if looks != [] {
      WatchRemembers(looks[..|looks| - 1]);
      RememberStep(Watch(looks[..|looks| - 1]), looks[|looks| - 1].ws);
    }
  }

  /** Whatever the order of evaluations, a window is shot in again only after 32 newer windows have been. */
  lemma {:induction false} RefireNeedsNewer(looks: seq<Look>, i: nat, j: nat)
    requires i < j < |Watch(looks).shots| && Watch(looks).shots[i] == Watch(looks).shots[j]
    ensures |Above(Windows(Watch(looks).shots[..j]), Watch(looks).shots[j])| >= 32
  {
    var init := looks[..|looks| - 1];
    var r, shots := Watch(init), Watch(looks).shots;
    if j < |r.shots| {
      RefireNeedsNewer(init, i, j);
      assert shots[..j] == r.shots[..j];
    } else {
      WatchRemembers(init);
      assert shots[..j] == r.shots;
      assert r.shots[i] in r.shots;
      AboveGrows(r.fired, Windows(r.shots), shots[j]);
    }
  }

  lemma {:induction false} ShotsWithin(looks: seq<Look>, newest: int)
    requires forall l <- looks :: l.ws <= newest
    ensures forall w <- Watch(looks).shots :: w <= newest
  {
    if looks != [] {
      var init, last := looks[..|looks| - 1], looks[|looks| - 1];
      assert last in looks && forall l <- init :: l in looks;
      ShotsWithin(init, newest);
    }
  }

  lemma NewestIsFresh(r: Record, ws: int)
    requires Remembers(r) && ws !in r.fired
    requires forall w <- r.shots :: w <= ws
    ensures ws !in r.shots
  {
    assert Above(r.fired, ws) == {};
  }

  ghost predicate Increasing(shots: seq<int>) {
    forall i, j :: 0 <= i < j < |shots| ==> shots[i] < shots[j]
  }

  lemma IncreasingAppend(shots: seq<int>, ws: int)
    requires Increasing(shots) && (forall w <- shots :: w <= ws) && ws !in shots
    ensures Increasing(shots + [ws])
  {
    forall k | 0 <= k < |shots| ensures shots[k] < ws {
      assert shots[k] in shots;
      assert shots[k] != ws;
    }
  }

  ghost predicate Forward(looks: seq<Look>) {
    forall i, j :: 0 <= i < j < |looks| ==> looks[i].ws <= looks[j].ws
  }

  /** As windows go forward, despite the pruning no window is ever shot in twice. */
  lemma {:induction false} OneShotPerWindow(looks: seq<Look>)
    requires Forward(looks)
    ensures Increasing(Watch(looks).shots)
  {
    if looks != [] {
      var init, last := looks[..|looks| - 1], looks[|looks| - 1];
      var r, ws := Watch(init), last.ws;
      OneShotPerWindow(init);
      forall l | l in init ensures l.ws <= ws {
        var k :| 0 <= k < |init| && init[k] == l;
        assert looks[k] == l;
      }
      ShotsWithin(init, ws);
      WatchRemembers(init);
      if ws !in r.fired {
        NewestIsFresh(r, ws);
        IncreasingAppend(r.shots, ws);
      }
    }
  }

  lemma StakeBound(price: real, size: real, budget: real)
    requires price > 0.0 && size <= budget / price + 0.005
    ensures Product(price, size) <= budget + Product(0.005, price)
  {
    var shares := budget / price;
    assert Product(price, shares) == budget;
    Spread(price, size, shares);
  }

  lemma Spread(price: real, size: real, shares: real)
    requires price > 0.0 && size <= shares + 0.005
    ensures Product(price, size) <= Product(price, shares) + Product(0.005, price)
  {
    ProductGrows(price, size, shares + 0.005);
    ProductSum(price, shares, 0.005);
  }

  lemma NearestAbove(n: int, x: real)
    requires Nearest(n, x * 100.0)
    ensures n as real / 100.0 <= x + 0.005
  {
  }

  /** Sizes are hundredths of a share, within the depth and the budgets but for the rounding. */
  lemma SizeBounds(cfg: Config, price: real, visible: real)
    requires price != 0.0
    ensures var size := SizeFor(cfg, price, visible);
            && OnLot(size)
            && size <= visible * cfg.depthParticipation + 0.005
            && size <= cfg.stakeUsdc / price + 0.005
            && size <= cfg.maxStakePerWindow / price + 0.005
  {
    var n := Hundredths(cfg, price, visible);
    var smallest := Min(Min(visible * cfg.depthParticipation, cfg.stakeUsdc / price), cfg.maxStakePerWindow / price);
    assert n as real / 100.0 <= smallest + 0.005 by { NearestAbove(n, smallest); }
    assert SizeFor(cfg, price, visible) == Times(10000 * n, LOT);
  }

  /** A shot of the sniper's size is worth no more than the stake and the cap but for the rounding of its size. */
  lemma StakeBounds(cfg: Config, price: real, visible: real)
    requires price > 0.0
    ensures Product(price, SizeFor(cfg, price, visible))
            <= Min(cfg.stakeUsdc, cfg.maxStakePerWindow) + Product(0.005, price)
  {
    SizeBounds(cfg, price, visible);
    StakeBound(price, SizeFor(cfg, price, visible), cfg.stakeUsdc);
    StakeBound(price, SizeFor(cfg, price, visible), cfg.maxStakePerWindow);
  }

  /** Every shot is a fill-and-kill buy at the touch, at an acceptable price and edge. */
  lemma ShotsAreAtTheTouch(mode: Mode, cfg: Config, s: Sight)
    requires Decide(mode, cfg, s).Fire?
    ensures var i := Decide(mode, cfg, s).intent;
            var top := if i.outcome == Up then s.up else s.down;
            && s.phase == Armed && s.hasK && s.feeRate.Some? && s.pUp.Some?
            && i.side == Buy && i.tif == FAK && top.ask == Some(i.price) && i.price <= mode.maxPrice && i.price != 0.0
            && Edge(mode, s.pUp.value, i.outcome, i.price, s.feeRate.value) >= mode.minEdge
            && i.size > 0.0 && i.size == SizeFor(cfg, i.price, top.askSize)
  {
  }

  /** A size in hundredths of a share, nearest to the smallest of what depth, stake and cap allow at the price. */
  ghost predicate Sized(cfg: Config, price: real, visible: real, size: real)
    requires price != 0.0
  {
    exists n: int :: InHundredths(n, SmallestHundredths(cfg, price, visible), size)
  }

  predicate InHundredths(n: int, x: real, size: real) {
    size * 100.0 == n as real && Nearest(n, x)
  }

  function SmallestHundredths(cfg: Config, price: real, visible: real): real
    requires price != 0.0
  {
    100.0 * Min(visible * cfg.depthParticipation, Min(cfg.stakeUsdc / price, cfg.maxStakePerWindow / price))
  }

  lemma SizedIs(cfg: Config, price: real, visible: real, size: real)
    requires price != 0.0
    ensures Sized(cfg, price, visible, size) <==> size == SizeFor(cfg, price, visible)
  {
    var n := Hundredths(cfg, price, visible);
    assert InHundredths(n, SmallestHundredths(cfg, price, visible), SizeFor(cfg, price, visible));
    if Sized(cfg, price, visible, size) {
      var m: int :| InHundredths(m, SmallestHundredths(cfg, price, visible), size);
      NearestUnique(m, n, SmallestHundredths(cfg, price, visible));
    }
  }

  /** What the sniper needs to ask for i: in its phase, with a model, a fee rate and a Price to Beat; the outcome that the
      model is confident of, up before down; an ask on show at no more than the maximum; and an edge of the model's
      probability over the ask, the taker fee of one share and the slippage. It asks for a fill-and-kill buy at the ask. */
  ghost predicate Fires(mode: Mode, cfg: Config, s: Sight, i: Intent) {
    && mode.enabled && s.phase == Armed && s.pUp.Some? && s.feeRate.Some? && s.hasK
    && (if i.outcome == Up then s.pUp.value >= mode.pMin else s.pUp.value < mode.pMin && 1.0 - s.pUp.value >= mode.pMin)
    && var top, p := if i.outcome == Up then s.up else s.down, if i.outcome == Up then s.pUp.value else 1.0 - s.pUp.value;
       var fee := if 0.0 < i.price < 1.0 then s.feeRate.value * i.price * (1.0 - i.price) else 0.0;
       && top.ask == Some(i.price) && top.askSize > 0.0 && i.price <= mode.maxPrice && i.price != 0.0
       && p - i.price - fee - mode.slippage >= mode.minEdge
       && i.side == Buy && i.tif == FAK && i.size > 0.0 && Sized(cfg, i.price, top.askSize, i.size)
  }

  /** The sniper asks for an order exactly when, and as, that is so. */
  lemma FiresIff(mode: Mode, cfg: Config, s: Sight, i: Intent)
    ensures Decide(mode, cfg, s) == Fire(i) <==> Fires(mode, cfg, s, i)
  {
    var top := if i.outcome == Up then s.up else s.down;
    if i.price != 0.0 { SizedIs(cfg, i.price, top.askSize, i.size); }
  }
}
