/** Session phases (markets/session.py) and the entry gates (risk/risk_manager.py). */
module Risk {
  import opened Grid
  import opened Orders
  import opened Ledger

  /** The settings the gates, phases and sizing read. */
  datatype Config = Config(maxStakePerWindow: real, stakeUsdc: real, depthParticipation: real, absoluteMaxPrice: real,
                           maxOpenExposure: real, maxDailyLoss: real, maxConsecutiveLosses: int, cooldownWindows: int,
                           maxChainlinkAge: real, maxBinanceAge: real, minLiquidityMultiple: real, maxNtpOffset: real,
                           warmupSeconds: real, armSeconds: real, minSeconds: real, windowLength: int)

  datatype Phase = Warmup | Mid | Armed | Lockout | Closed

  /** MarketSession.phase */
  function PhaseAt(cfg: Config, meta: Meta, now: real): Phase {
    var remaining := meta.windowClose as real - now;
    if now >= meta.windowClose as real then Closed
    else if remaining <= cfg.minSeconds then Lockout
    else if remaining <= cfg.armSeconds then Armed
    else if now - meta.windowStart as real < cfg.warmupSeconds then Warmup
    else Mid
  }

  /** Before the close but not in its last minSeconds; and warmed up, unless the last armSeconds have begun. */
  predicate EntryTime(cfg: Config, meta: Meta, now: real) {
    && now < meta.windowClose as real && now + cfg.minSeconds < meta.windowClose as real
    && (now + cfg.armSeconds >= meta.windowClose as real || now >= meta.windowStart as real + cfg.warmupSeconds)
  }

  /** Each phase by the clock. */
  lemma PhaseMeans(cfg: Config, meta: Meta, now: real)
    ensures var phase, left, into := PhaseAt(cfg, meta, now), meta.windowClose as real - now, now - meta.windowStart as real;
            && (phase == Closed <==> left <= 0.0)
            && (phase == Lockout <==> 0.0 < left <= cfg.minSeconds)
            && (phase == Armed <==> left > 0.0 && cfg.minSeconds < left <= cfg.armSeconds)
            && (phase == Warmup <==> left > 0.0 && left > cfg.minSeconds && left > cfg.armSeconds && into < cfg.warmupSeconds)
            && (phase == Mid <==> left > 0.0 && left > cfg.minSeconds && left > cfg.armSeconds && into >= cfg.warmupSeconds)
    ensures PhaseAt(cfg, meta, now) in {Mid, Armed} <==> EntryTime(cfg, meta, now)
  {
  }

  datatype Gate = Killed | Cooldown | InPhase(phase: Phase) | NoPriceToBeat | FeesUnknown | ChainlinkStale
                | BinanceStale | BookDirty | ClockUnsynced | TieBand | PriceCap | WindowStakeCap | ExposureCap
                | DailyLossBudget | BelowMinSize | ThinBook

  datatype Intent = Intent(outcome: Outcome, side: Side, price: real, size: real, tif: TimeInForce)

  /** GateContext; an age of None is infinite, an offset of None was never measured. */
  datatype GateContext = GateContext(now: real, hasK: bool, stakeUsed: real, topSize: real, bookDirty: bool,
                                     chainlinkAge: Option<real>, binanceAge: Option<real>, ntpOffset: Option<real>,
                                     inTieBand: bool, openExposure: real, dailyRealized: real)

  function Stake(i: Intent): real {
    Product(i.price, i.size)
  }

  function Abs(x: real): real {
    if x < 0.0 then -x else x
  }

  function Unless(ok: bool, gate: Gate): seq<Gate> {
    if ok then [] else [gate]
  }

  function SessionGates(cfg: Config, killed: bool, cooldownUntil: int, meta: Meta, ctx: GateContext): seq<Gate> {
    var phase := PhaseAt(cfg, meta, ctx.now);
    Unless(!killed, Killed)
    + Unless(meta.windowStart >= cooldownUntil, Cooldown)
    + Unless(phase in {Mid, Armed}, InPhase(phase))
    + Unless(ctx.hasK, NoPriceToBeat)
    + Unless(meta.feesKnown, FeesUnknown)
  }

  function FeedGates(cfg: Config, ctx: GateContext): seq<Gate> {
    Unless(ctx.chainlinkAge.Some? && ctx.chainlinkAge.value <= cfg.maxChainlinkAge, ChainlinkStale)
    + Unless(ctx.binanceAge.Some? && ctx.binanceAge.value <= cfg.maxBinanceAge, BinanceStale)
    + Unless(!ctx.bookDirty, BookDirty)
    + Unless(ctx.ntpOffset.Some? && Abs(ctx.ntpOffset.value) <= cfg.maxNtpOffset, ClockUnsynced)
    + Unless(!ctx.inTieBand, TieBand)
  }

  function SizingGates(cfg: Config, meta: Meta, i: Intent, ctx: GateContext): seq<Gate> {
    Unless(i.price <= cfg.absoluteMaxPrice, PriceCap)
    + Unless(ctx.stakeUsed + Stake(i) <= cfg.maxStakePerWindow + SIZE_TOL, WindowStakeCap)
    + Unless(ctx.openExposure + Stake(i) <= cfg.maxOpenExposure + SIZE_TOL, ExposureCap)
    + Unless(ctx.dailyRealized - Stake(i) > -cfg.maxDailyLoss, DailyLossBudget)
    + Unless(i.size >= meta.minOrderSize, BelowMinSize)
    + Unless(ctx.topSize >= i.size * cfg.minLiquidityMultiple, ThinBook)
  }

  /** RiskManager.check_entry: every failed gate, in the order the source checks them. */
  function FailedGates(cfg: Config, killed: bool, cooldownUntil: int, meta: Meta, i: Intent, ctx: GateContext): seq<Gate> {
    SessionGates(cfg, killed, cooldownUntil, meta, ctx) + FeedGates(cfg, ctx) + SizingGates(cfg, meta, i, ctx)
  }

  /** _EXIT_IGNORABLE_GATES */
  predicate ExitIgnorable(g: Gate) {
    g in {TieBand, ThinBook, WindowStakeCap, ExposureCap, DailyLossBudget, BelowMinSize} || g.InPhase?
  }

  /** Engine._handle_intent: entries need every gate, exits only those that are not about entering. */
  predicate Allowed(i: Intent, failed: seq<Gate>) {
    failed == [] || (i.side == Sell && forall g <- failed :: ExitIgnorable(g))
  }

  lemma {:induction false} GateMember(cfg: Config, killed: bool, cooldownUntil: int, meta: Meta, i: Intent, ctx: GateContext)
    ensures var f := FailedGates(cfg, killed, cooldownUntil, meta, i, ctx);
            && (!meta.feesKnown ==> FeesUnknown in f)
            && (f == [] ==>
                  && PhaseAt(cfg, meta, ctx.now) in {Mid, Armed}
                  && ctx.stakeUsed + Stake(i) <= cfg.maxStakePerWindow + SIZE_TOL
                  && ctx.openExposure + Stake(i) <= cfg.maxOpenExposure + SIZE_TOL
                  && ctx.dailyRealized - Stake(i) > -cfg.maxDailyLoss)
  {
  }

  /** Which gates fail, gate by gate. */
  predicate Fails(g: Gate, cfg: Config, killed: bool, cooldownUntil: int, meta: Meta, i: Intent, ctx: GateContext) {
    match g
    case Killed => killed
    case Cooldown => meta.windowStart < cooldownUntil
    case InPhase(phase) => phase == PhaseAt(cfg, meta, ctx.now) && !EntryTime(cfg, meta, ctx.now)
    case NoPriceToBeat => !ctx.hasK
    case FeesUnknown => !meta.feesKnown
    case ChainlinkStale => ctx.chainlinkAge.None? || ctx.chainlinkAge.value > cfg.maxChainlinkAge
    case BinanceStale => ctx.binanceAge.None? || ctx.binanceAge.value > cfg.maxBinanceAge
    case BookDirty => ctx.bookDirty
    case ClockUnsynced => ctx.ntpOffset.None? || ctx.ntpOffset.value > cfg.maxNtpOffset || ctx.ntpOffset.value < -cfg.maxNtpOffset
    case TieBand => ctx.inTieBand
    case PriceCap => i.price > cfg.absoluteMaxPrice
    case WindowStakeCap => ctx.stakeUsed + i.price * i.size > cfg.maxStakePerWindow + 0.000000001
    case ExposureCap => ctx.openExposure + i.price * i.size > cfg.maxOpenExposure + 0.000000001
    case DailyLossBudget => ctx.dailyRealized - i.price * i.size <= -cfg.maxDailyLoss
    case BelowMinSize => i.size < meta.minOrderSize
    case ThinBook => ctx.topSize < i.size * cfg.minLiquidityMultiple
  }

  /** The place of a gate in check_entry. */
  function RankOf(g: Gate): nat {
    match g
    case Killed => 0
    case Cooldown => 1
    case InPhase(_) => 2
    case NoPriceToBeat => 3
    case FeesUnknown => 4
    case ChainlinkStale => 5
    case BinanceStale => 6
    case BookDirty => 7
    case ClockUnsynced => 8
    case TieBand => 9
    case PriceCap => 10
    case WindowStakeCap => 11
    case ExposureCap => 12
    case DailyLossBudget => 13
    case BelowMinSize => 14
    case ThinBook => 15
  }

  /** Gates in the order of check_entry, from one place up to another. */
  ghost predicate InPlace(gates: seq<Gate>, lo: nat, hi: nat) {
    && (forall j, k :: 0 <= j < k < |gates| ==> RankOf(gates[j]) < RankOf(gates[k]))
    && forall g <- gates :: lo <= RankOf(g) < hi
  }

  lemma NextInPlace(gates: seq<Gate>, lo: nat, hi: nat, ok: bool, gate: Gate)
    requires InPlace(gates, lo, hi) && RankOf(gate) == hi && lo <= hi
    ensures InPlace(gates + Unless(ok, gate), lo, hi + 1)
  {
    forall k | 0 <= k < |gates| ensures RankOf(gates[k]) < hi { assert gates[k] in gates; }
  }

  lemma BothInPlace(a: seq<Gate>, b: seq<Gate>, lo: nat, mid: nat, hi: nat)
    requires InPlace(a, lo, mid) && InPlace(b, mid, hi) && lo <= mid <= hi
    ensures InPlace(a + b, lo, hi)
  {
    forall k | 0 <= k < |a| ensures RankOf(a[k]) < mid { assert a[k] in a; }
    forall k | 0 <= k < |b| ensures mid <= RankOf(b[k]) { assert b[k] in b; }
  }

  function Five(v: bool, a: Gate, w: bool, b: Gate, x: bool, c: Gate, y: bool, d: Gate, z: bool, e: Gate): seq<Gate> {
    Unless(v, a) + Unless(w, b) + Unless(x, c) + Unless(y, d) + Unless(z, e)
  }

  /** The gates reported of five in a row that begin at a place. */
  lemma FiveInPlace(lo: nat, v: bool, a: Gate, w: bool, b: Gate, x: bool, c: Gate, y: bool, d: Gate, z: bool, e: Gate)
    requires RankOf(a) == lo && RankOf(b) == lo + 1 && RankOf(c) == lo + 2 && RankOf(d) == lo + 3 && RankOf(e) == lo + 4
    ensures InPlace(Five(v, a, w, b, x, c, y, d, z, e), lo, lo + 5)
  {
    var two, three := Unless(v, a) + Unless(w, b), Unless(v, a) + Unless(w, b) + Unless(x, c);
    NextInPlace([], lo, lo, v, a);
    assert [] + Unless(v, a) == Unless(v, a);
    NextInPlace(Unless(v, a), lo, lo + 1, w, b);
    NextInPlace(two, lo, lo + 2, x, c);
    NextInPlace(three, lo, lo + 3, y, d);
    NextInPlace(three + Unless(y, d), lo, lo + 4, z, e);
  }

  lemma SessionInPlace(cfg: Config, killed: bool, cooldownUntil: int, meta: Meta, ctx: GateContext)
    ensures InPlace(SessionGates(cfg, killed, cooldownUntil, meta, ctx), 0, 5)
  {
    var phase := PhaseAt(cfg, meta, ctx.now);
    FiveInPlace(0, !killed, Gate.Killed, meta.windowStart >= cooldownUntil, Cooldown, phase in {Mid, Armed}, InPhase(phase),
                ctx.hasK, NoPriceToBeat, meta.feesKnown, FeesUnknown);
    assert SessionGates(cfg, killed, cooldownUntil, meta, ctx)
        == Five(!killed, Gate.Killed, meta.windowStart >= cooldownUntil, Cooldown, phase in {Mid, Armed}, InPhase(phase),
                ctx.hasK, NoPriceToBeat, meta.feesKnown, FeesUnknown);
  }

  lemma FeedsInPlace(cfg: Config, ctx: GateContext)
    ensures InPlace(FeedGates(cfg, ctx), 5, 10)
  {
    var p := ctx.chainlinkAge.Some? && ctx.chainlinkAge.value <= cfg.maxChainlinkAge;
    var q := ctx.binanceAge.Some? && ctx.binanceAge.value <= cfg.maxBinanceAge;
    var r := ctx.ntpOffset.Some? && Abs(ctx.ntpOffset.value) <= cfg.maxNtpOffset;
    FiveInPlace(5, p, ChainlinkStale, q, BinanceStale, !ctx.bookDirty, BookDirty, r, ClockUnsynced, !ctx.inTieBand, TieBand);
    assert FeedGates(cfg, ctx)
        == Five(p, ChainlinkStale, q, BinanceStale, !ctx.bookDirty, BookDirty, r, ClockUnsynced, !ctx.inTieBand, TieBand);
  }

  lemma SizingInPlace(cfg: Config, meta: Meta, i: Intent, ctx: GateContext)
    ensures InPlace(SizingGates(cfg, meta, i, ctx), 10, 16)
  {
    var five := SizingFive(cfg, meta, i, ctx);
    NextInPlace(five, 10, 15, ctx.topSize >= i.size * cfg.minLiquidityMultiple, ThinBook);
  }

  lemma SizingFive(cfg: Config, meta: Meta, i: Intent, ctx: GateContext) returns (five: seq<Gate>)
    ensures InPlace(five, 10, 15)
    ensures SizingGates(cfg, meta, i, ctx) == five + Unless(ctx.topSize >= i.size * cfg.minLiquidityMultiple, ThinBook)
  {
    var p, q := ctx.stakeUsed + Stake(i) <= cfg.maxStakePerWindow + SIZE_TOL, ctx.openExposure + Stake(i) <= cfg.maxOpenExposure + SIZE_TOL;
    var r, v, z := ctx.dailyRealized - Stake(i) > -cfg.maxDailyLoss, i.price <= cfg.absoluteMaxPrice, i.size >= meta.minOrderSize;
    five := Five(v, PriceCap, p, WindowStakeCap, q, ExposureCap, r, DailyLossBudget, z, BelowMinSize);
    FiveInPlace(10, v, PriceCap, p, WindowStakeCap, q, ExposureCap, r, DailyLossBudget, z, BelowMinSize);
  }

  lemma GatesInPlace(cfg: Config, killed: bool, cooldownUntil: int, meta: Meta, i: Intent, ctx: GateContext)
    ensures InPlace(FailedGates(cfg, killed, cooldownUntil, meta, i, ctx), 0, 16)
  {
    var a, b, c := SessionGates(cfg, killed, cooldownUntil, meta, ctx), FeedGates(cfg, ctx), SizingGates(cfg, meta, i, ctx);
    SessionInPlace(cfg, killed, cooldownUntil, meta, ctx);
    FeedsInPlace(cfg, ctx);
    SizingInPlace(cfg, meta, i, ctx);
    BothInPlace(a, b, 0, 5, 10);
    BothInPlace(a + b, c, 0, 10, 16);
  }

  lemma FiveIn(g: Gate, v: bool, a: Gate, w: bool, b: Gate, x: bool, c: Gate, y: bool, d: Gate, z: bool, e: Gate)
    ensures g in Unless(v, a) + Unless(w, b) + Unless(x, c) + Unless(y, d) + Unless(z, e)
            <==> (!v && g == a) || (!w && g == b) || (!x && g == c) || (!y && g == d) || (!z && g == e)
  {
  }

  lemma SessionGateIn(cfg: Config, killed: bool, cooldownUntil: int, meta: Meta, i: Intent, ctx: GateContext, g: Gate)
    ensures g in SessionGates(cfg, killed, cooldownUntil, meta, ctx)
            <==> RankOf(g) < 5 && Fails(g, cfg, killed, cooldownUntil, meta, i, ctx)
  {
    var phase := PhaseAt(cfg, meta, ctx.now);
    PhaseMeans(cfg, meta, ctx.now);
    FiveIn(g, !killed, Gate.Killed, meta.windowStart >= cooldownUntil, Cooldown, phase in {Mid, Armed}, InPhase(phase),
           ctx.hasK, NoPriceToBeat, meta.feesKnown, FeesUnknown);
  }

  lemma FeedGateIn(cfg: Config, killed: bool, cooldownUntil: int, meta: Meta, i: Intent, ctx: GateContext, g: Gate)
    ensures g in FeedGates(cfg, ctx) <==> 5 <= RankOf(g) < 10 && Fails(g, cfg, killed, cooldownUntil, meta, i, ctx)
  {
    FiveIn(g, ctx.chainlinkAge.Some? && ctx.chainlinkAge.value <= cfg.maxChainlinkAge, ChainlinkStale,
           ctx.binanceAge.Some? && ctx.binanceAge.value <= cfg.maxBinanceAge, BinanceStale, !ctx.bookDirty, BookDirty,
           ctx.ntpOffset.Some? && Abs(ctx.ntpOffset.value) <= cfg.maxNtpOffset, ClockUnsynced, !ctx.inTieBand, TieBand);
  }

  lemma SizingListed(cfg: Config, meta: Meta, i: Intent, ctx: GateContext, g: Gate)
    ensures g in SizingGates(cfg, meta, i, ctx)
            <==> || (g == PriceCap && !(i.price <= cfg.absoluteMaxPrice))
                 || (g == WindowStakeCap && !(ctx.stakeUsed + Stake(i) <= cfg.maxStakePerWindow + SIZE_TOL))
                 || (g == ExposureCap && !(ctx.openExposure + Stake(i) <= cfg.maxOpenExposure + SIZE_TOL))
                 || (g == DailyLossBudget && !(ctx.dailyRealized - Stake(i) > -cfg.maxDailyLoss))
                 || (g == BelowMinSize && !(i.size >= meta.minOrderSize))
                 || (g == ThinBook && !(ctx.topSize >= i.size * cfg.minLiquidityMultiple))
  {
  }

  lemma SizingGateIn(cfg: Config, killed: bool, cooldownUntil: int, meta: Meta, i: Intent, ctx: GateContext, g: Gate)
    ensures g in SizingGates(cfg, meta, i, ctx) <==> 10 <= RankOf(g) && Fails(g, cfg, killed, cooldownUntil, meta, i, ctx)
  {
    SizingListed(cfg, meta, i, ctx, g);
  }

  /** check_entry reports exactly the gates that fail, in its own order. */
  lemma GatesMean(cfg: Config, killed: bool, cooldownUntil: int, meta: Meta, i: Intent, ctx: GateContext)
    ensures var gates := FailedGates(cfg, killed, cooldownUntil, meta, i, ctx);
            InPlace(gates, 0, 16) && forall g :: g in gates <==> Fails(g, cfg, killed, cooldownUntil, meta, i, ctx)
  {
    GatesInPlace(cfg, killed, cooldownUntil, meta, i, ctx);
    forall g ensures g in FailedGates(cfg, killed, cooldownUntil, meta, i, ctx) <==> Fails(g, cfg, killed, cooldownUntil, meta, i, ctx) {
      SessionGateIn(cfg, killed, cooldownUntil, meta, i, ctx, g);
      FeedGateIn(cfg, killed, cooldownUntil, meta, i, ctx, g);
      SizingGateIn(cfg, killed, cooldownUntil, meta, i, ctx, g);
    }
  }

  /** An order that passes the gates belongs to a market with known fees; a buy fits the stake cap and the
      day's loss budget. */
  lemma AllowedMeans(cfg: Config, killed: bool, cooldownUntil: int, meta: Meta, i: Intent, ctx: GateContext)
    requires Allowed(i, FailedGates(cfg, killed, cooldownUntil, meta, i, ctx))
    ensures meta.feesKnown
    ensures i.side == Buy ==>
              && PhaseAt(cfg, meta, ctx.now) in {Mid, Armed}
              && ctx.stakeUsed + Stake(i) <= cfg.maxStakePerWindow + SIZE_TOL
              && ctx.openExposure + Stake(i) <= cfg.maxOpenExposure + SIZE_TOL
              && ctx.dailyRealized - Stake(i) > -cfg.maxDailyLoss
  {
    GateMember(cfg, killed, cooldownUntil, meta, i, ctx);
  }

  /** What entries and exits alike depend on. */
  predicate Tradable(cfg: Config, killed: bool, cooldownUntil: int, meta: Meta, i: Intent, ctx: GateContext) {
    && !killed && meta.windowStart >= cooldownUntil && ctx.hasK && meta.feesKnown && !ctx.bookDirty
    && ctx.chainlinkAge.Some? && ctx.chainlinkAge.value <= cfg.maxChainlinkAge
    && ctx.binanceAge.Some? && ctx.binanceAge.value <= cfg.maxBinanceAge
    && ctx.ntpOffset.Some? && -cfg.maxNtpOffset <= ctx.ntpOffset.value <= cfg.maxNtpOffset
    && i.price <= cfg.absoluteMaxPrice
  }

  ghost predicate AllIgnorable(gates: seq<Gate>) {
    forall g <- gates :: ExitIgnorable(g)
  }

  lemma Ignored(gates: seq<Gate>, ok: bool, gate: Gate)
    ensures AllIgnorable(gates + Unless(ok, gate)) <==> AllIgnorable(gates) && (ok || ExitIgnorable(gate))
  {
    if AllIgnorable(gates + Unless(ok, gate)) {
      assert forall g <- gates :: g in gates + Unless(ok, gate);
      if !ok { assert gate in gates + Unless(ok, gate); }
    }
  }

  lemma IgnoredOne(ok: bool, gate: Gate)
    ensures AllIgnorable(Unless(ok, gate)) <==> ok || ExitIgnorable(gate)
  {
    if !ok { assert gate in Unless(ok, gate); }
  }

  lemma IgnoredBoth(a: seq<Gate>, b: seq<Gate>)
    ensures AllIgnorable(a + b) <==> AllIgnorable(a) && AllIgnorable(b)
  {
    assert forall g <- a :: g in a + b;
    assert forall g <- b :: g in a + b;
  }

  lemma SessionIgnorable(cfg: Config, killed: bool, cooldownUntil: int, meta: Meta, ctx: GateContext)
    ensures AllIgnorable(SessionGates(cfg, killed, cooldownUntil, meta, ctx))
            <==> !killed && meta.windowStart >= cooldownUntil && ctx.hasK && meta.feesKnown
  {
    var phase := PhaseAt(cfg, meta, ctx.now);
    var a := Unless(!killed, Killed);
    var b := a + Unless(meta.windowStart >= cooldownUntil, Cooldown);
    var c := b + Unless(phase in {Mid, Armed}, InPhase(phase));
    var d := c + Unless(ctx.hasK, NoPriceToBeat);
    IgnoredOne(!killed, Killed);
    Ignored(a, meta.windowStart >= cooldownUntil, Cooldown);
    Ignored(b, phase in {Mid, Armed}, InPhase(phase));
    Ignored(c, ctx.hasK, NoPriceToBeat);
    Ignored(d, meta.feesKnown, FeesUnknown);
  }

  lemma FeedIgnorable(cfg: Config, ctx: GateContext)
    ensures AllIgnorable(FeedGates(cfg, ctx))
            <==> && ctx.chainlinkAge.Some? && ctx.chainlinkAge.value <= cfg.maxChainlinkAge
                 && ctx.binanceAge.Some? && ctx.binanceAge.value <= cfg.maxBinanceAge
                 && !ctx.bookDirty && ctx.ntpOffset.Some? && Abs(ctx.ntpOffset.value) <= cfg.maxNtpOffset
  {
    var a := Unless(ctx.chainlinkAge.Some? && ctx.chainlinkAge.value <= cfg.maxChainlinkAge, ChainlinkStale);
    var b := a + Unless(ctx.binanceAge.Some? && ctx.binanceAge.value <= cfg.maxBinanceAge, BinanceStale);
    var c := b + Unless(!ctx.bookDirty, BookDirty);
    var d := c + Unless(ctx.ntpOffset.Some? && Abs(ctx.ntpOffset.value) <= cfg.maxNtpOffset, ClockUnsynced);
    IgnoredOne(ctx.chainlinkAge.Some? && ctx.chainlinkAge.value <= cfg.maxChainlinkAge, ChainlinkStale);
    Ignored(a, ctx.binanceAge.Some? && ctx.binanceAge.value <= cfg.maxBinanceAge, BinanceStale);
    Ignored(b, !ctx.bookDirty, BookDirty);
    Ignored(c, ctx.ntpOffset.Some? && Abs(ctx.ntpOffset.value) <= cfg.maxNtpOffset, ClockUnsynced);
    Ignored(d, !ctx.inTieBand, TieBand);
  }

  lemma SizingIgnorable(cfg: Config, meta: Meta, i: Intent, ctx: GateContext)
    ensures AllIgnorable(SizingGates(cfg, meta, i, ctx)) <==> i.price <= cfg.absoluteMaxPrice
  {
    var a := Unless(i.price <= cfg.absoluteMaxPrice, PriceCap);
    var b := a + Unless(ctx.stakeUsed + Stake(i) <= cfg.maxStakePerWindow + SIZE_TOL, WindowStakeCap);
    var c := b + Unless(ctx.openExposure + Stake(i) <= cfg.maxOpenExposure + SIZE_TOL, ExposureCap);
    var d := c + Unless(ctx.dailyRealized - Stake(i) > -cfg.maxDailyLoss, DailyLossBudget);
    var e := d + Unless(i.size >= meta.minOrderSize, BelowMinSize);
    IgnoredOne(i.price <= cfg.absoluteMaxPrice, PriceCap);
    Ignored(a, ctx.stakeUsed + Stake(i) <= cfg.maxStakePerWindow + SIZE_TOL, WindowStakeCap);
    Ignored(b, ctx.openExposure + Stake(i) <= cfg.maxOpenExposure + SIZE_TOL, ExposureCap);
    Ignored(c, ctx.dailyRealized - Stake(i) > -cfg.maxDailyLoss, DailyLossBudget);
    Ignored(d, i.size >= meta.minOrderSize, BelowMinSize);
    Ignored(e, ctx.topSize >= i.size * cfg.minLiquidityMultiple, ThinBook);
  }

  /** A sale goes ahead exactly when the market is tradable: no phase, band, size, liquidity or budget stops it, but
      the kill switch, a cooldown, a missing K, unknown fees, a stale feed, a dirty book, an unsynced clock and the
      price cap all do. */
  lemma ExitAllowedIff(cfg: Config, killed: bool, cooldownUntil: int, meta: Meta, i: Intent, ctx: GateContext)
    requires i.side == Sell
    ensures Allowed(i, FailedGates(cfg, killed, cooldownUntil, meta, i, ctx))
            <==> Tradable(cfg, killed, cooldownUntil, meta, i, ctx)
  {
    var session, feeds := SessionGates(cfg, killed, cooldownUntil, meta, ctx), FeedGates(cfg, ctx);
    SessionIgnorable(cfg, killed, cooldownUntil, meta, ctx);
    FeedIgnorable(cfg, ctx);
    SizingIgnorable(cfg, meta, i, ctx);
    IgnoredBoth(session, feeds);
    IgnoredBoth(session + feeds, SizingGates(cfg, meta, i, ctx));
    assert Allowed(i, FailedGates(cfg, killed, cooldownUntil, meta, i, ctx))
           <==> AllIgnorable(FailedGates(cfg, killed, cooldownUntil, meta, i, ctx));
  }

  /** A buy goes ahead exactly when the market is tradable and the phase, the price band, the three budgets, the
      minimum size and the liquidity multiple all allow it. */
  lemma EntryAllowedIff(cfg: Config, killed: bool, cooldownUntil: int, meta: Meta, i: Intent, ctx: GateContext)
    requires i.side == Buy
    ensures Allowed(i, FailedGates(cfg, killed, cooldownUntil, meta, i, ctx))
            <==> && Tradable(cfg, killed, cooldownUntil, meta, i, ctx)
                 && EntryTime(cfg, meta, ctx.now) && !ctx.inTieBand
                 && ctx.stakeUsed + i.price * i.size <= cfg.maxStakePerWindow + 0.000000001
                 && ctx.openExposure + i.price * i.size <= cfg.maxOpenExposure + 0.000000001
                 && ctx.dailyRealized - i.price * i.size > -cfg.maxDailyLoss
                 && i.size >= meta.minOrderSize && ctx.topSize >= i.size * cfg.minLiquidityMultiple
  {
    PhaseMeans(cfg, meta, ctx.now);
  }

  /** Windows have one length, which divides the day, and start at its multiples; the phases lie inside them. */
  ghost predicate Aligned(cfg: Config, meta: Meta) {
    && cfg.windowLength > 0 && 86400 % cfg.windowLength == 0
    && meta.windowStart % cfg.windowLength == 0 && meta.windowClose == meta.windowStart + cfg.windowLength
    && cfg.warmupSeconds >= 0.0 && cfg.armSeconds <= cfg.windowLength as real
  }

  /** No window of a length that divides the day straddles midnight. */
  lemma WithinDay(start: int, length: int, t: int)
    requires length > 0 && 86400 % length == 0 && start % length == 0 && start <= t < start + length
    ensures DayOf(t) == DayOf(start)
  {
    var m, w, d := 86400 / length, start / length, start / 86400;
    assert 86400 == length * m && start == length * w && start == 86400 * d + start % 86400;
    var f := w - m * d;
    assert start % 86400 == length * f by { Regroup(length, m, d, w); }
    BelowProduct(length, f, m);
    DayIs(t, d);
  }

  lemma Regroup(length: int, m: int, d: int, w: int)
    ensures length * w - length * m * d == length * (w - m * d)
  {
  }

  lemma BelowProduct(length: int, f: int, m: int)
    requires length > 0 && length * f < length * m
    ensures length * f + length <= length * m
  {
    if f >= m { NonNegativeProduct(length, f - m); }
    NonNegativeProduct(length, m - f - 1);
  }

  lemma NonNegativeProduct(x: int, y: int)
    requires x >= 0 && y >= 0
    ensures x * y >= 0
  {
  }

  lemma DayIs(t: int, d: int)
    requires 86400 * d <= t < 86400 * d + 86400
    ensures DayOf(t) == d
  {
  }

  /** An entry phase lies inside its window, so the gate reads the loss budget of the day the window settles on. */
  lemma EntryOnSettlementDay(cfg: Config, meta: Meta, now: real)
    requires Aligned(cfg, meta) && PhaseAt(cfg, meta, now) in {Mid, Armed}
    ensures meta.windowStart as real <= now < meta.windowClose as real
    ensures DayOf(now.Floor) == DayOf(meta.windowStart)
  {
    WithinDay(meta.windowStart, cfg.windowLength, now.Floor);
  }

  // ---- losing streaks and the kill switch

  /** consecutive_losses and cooldown_until_window */
  datatype Streak = Streak(losses: int, cooldownUntil: int)

  datatype Result = Result(windowStart: int, pnl: real)

  /** RiskManager.record_window_result */
  function AfterResult(cfg: Config, s: Streak, r: Result): Streak {
    if r.pnl < 0.0 then
      if s.losses + 1 >= cfg.maxConsecutiveLosses
      then Streak(0, r.windowStart + cfg.cooldownWindows * cfg.windowLength)
      else s.(losses := s.losses + 1)
    else if r.pnl > 0.0 then s.(losses := 0)
    else s
  }

  function AfterResults(cfg: Config, rs: seq<Result>): Streak {
    if rs == [] then Streak(0, 0) else AfterResult(cfg, AfterResults(cfg, rs[..|rs| - 1]), rs[|rs| - 1])
  }

  /** The losses since the last window that made money; breaking even neither counts nor resets. */
  function LossesSinceWin(rs: seq<Result>): nat {
    if rs == [] || rs[|rs| - 1].pnl > 0.0 then 0
    else LossesSinceWin(rs[..|rs| - 1]) + if rs[|rs| - 1].pnl < 0.0 then 1 else 0
  }

  /** Cooldowns engage at every n-th loss of a run. */
  function StreakLength(cfg: Config): nat
    ensures StreakLength(cfg) > 0
  {
    if cfg.maxConsecutiveLosses > 1 then cfg.maxConsecutiveLosses else 1
  }

  predicate Engages(cfg: Config, rs: seq<Result>) {
    rs != [] && rs[|rs| - 1].pnl < 0.0 && LossesSinceWin(rs) % StreakLength(cfg) == 0
  }

  /** The window up to which the latest engaged cooldown reaches. */
  function CooldownOf(cfg: Config, rs: seq<Result>): int {
    if rs == [] then 0
    else if Engages(cfg, rs) then rs[|rs| - 1].windowStart + cfg.cooldownWindows * cfg.windowLength
    else CooldownOf(cfg, rs[..|rs| - 1])
  }

  lemma NextRemainder(n: nat, m: nat)
    requires m > 0
    ensures (n + 1) % m == if n % m + 1 == m then 0 else n % m + 1
  {
    var q := n / m;
    assert n == m * q + n % m;
    if n % m + 1 == m {
      assert n + 1 == m * (q + 1);
      RemainderIs(n + 1, m, q + 1, 0);
    } else {
      RemainderIs(n + 1, m, q, n % m + 1);
    }
  }

  lemma RemainderIs(n: nat, m: nat, q: int, r: nat)
    requires m > 0 && r < m && n == m * q + r
    ensures n % m == r
  {
    var d: int := n / m - q;
    var size: int := m;
    assert n == m * (n / m) + n % m;
    assert size * d == r - n % m;
    assert d >= 1 ==> size * d >= size;
    assert d <= -1 ==> size * d <= -size;
  }

  /** The counter is the length of the losing run modulo the limit, and a cooldown engages at every multiple. */
  lemma {:induction false} CooldownEveryNthLoss(cfg: Config, rs: seq<Result>)
    ensures AfterResults(cfg, rs) == Streak(LossesSinceWin(rs) % StreakLength(cfg), CooldownOf(cfg, rs))
  {
    if rs != [] {
      var init := rs[..|rs| - 1];
      CooldownEveryNthLoss(cfg, init);
      NextRemainder(LossesSinceWin(init), StreakLength(cfg));
    }
  }

  class RiskManager {
    const cfg: Config
    var killed: bool
    var killReason: string
    var consecutiveLosses: int
    var cooldownUntil: int

    constructor (cfg: Config)
      ensures this.cfg == cfg && !killed && Streak(consecutiveLosses, cooldownUntil) == AfterResults(cfg, [])
    {
      this.cfg, killed, killReason, consecutiveLosses, cooldownUntil := cfg, false, "", 0, 0;
    }

    method RecordWindowResult(windowStart: int, pnl: real)
      modifies this`consecutiveLosses, this`cooldownUntil
      ensures Streak(consecutiveLosses, cooldownUntil)
              == AfterResult(cfg, Streak(old(consecutiveLosses), old(cooldownUntil)), Result(windowStart, pnl))
    {
      if pnl < 0.0 {
        consecutiveLosses := consecutiveLosses + 1;
        if consecutiveLosses >= cfg.maxConsecutiveLosses {
          cooldownUntil := windowStart + cfg.cooldownWindows * cfg.windowLength;
          consecutiveLosses := 0;
        }
      } else if pnl > 0.0 {
        consecutiveLosses := 0;
      }
    }

    /** The first reason stays. */
    method Kill(reason: string)
      modifies this`killed, this`killReason
      ensures killed && killReason == if old(killed) then old(killReason) else reason
    {
      if !killed {
        killed, killReason := true, reason;
      }
    }

    method CheckDailyLoss(daily: real)
      modifies this`killed, this`killReason
      ensures killed == (old(killed) || daily <= -cfg.maxDailyLoss)
    {
      if daily <= -cfg.maxDailyLoss {
        Kill("daily loss limit");
      }
    }

    /** The closure of check_entry that notes a failed gate. */
    method Note(failed: seq<Gate>, ok: bool, gate: Gate) returns (more: seq<Gate>)
      ensures more == failed + Unless(ok, gate)
    {
      more := if ok then failed else failed + [gate];
    }

    /** Collects every failed gate; entry is allowed when there is none. */
    method CheckEntry(meta: Meta, i: Intent, ctx: GateContext) returns (allowed: bool, failed: seq<Gate>)
      ensures failed == FailedGates(cfg, killed, cooldownUntil, meta, i, ctx)
      ensures forall g :: g in failed <==> Fails(g, cfg, killed, cooldownUntil, meta, i, ctx)
      ensures InPlace(failed, 0, 16) && (allowed <==> failed == [])
    {
      GatesMean(cfg, killed, cooldownUntil, meta, i, ctx);
      var session := CheckSession(meta, ctx);
      var feeds := CheckFeeds(ctx);
      var sizing := CheckSizing(meta, i, ctx);
      failed := session + feeds + sizing;
      allowed := failed == [];
    }

    method CheckSession(meta: Meta, ctx: GateContext) returns (failed: seq<Gate>)
      ensures failed == SessionGates(cfg, killed, cooldownUntil, meta, ctx)
    {
      failed := Note([], !killed, Killed);
      assert failed == Unless(!killed, Killed);
      failed := Note(failed, meta.windowStart >= cooldownUntil, Cooldown);
      var phase := PhaseAt(cfg, meta, ctx.now);
      failed := Note(failed, phase in {Mid, Armed}, InPhase(phase));
      failed := Note(failed, ctx.hasK, NoPriceToBeat);
      failed := Note(failed, meta.feesKnown, FeesUnknown);
    }

    method CheckFeeds(ctx: GateContext) returns (failed: seq<Gate>)
      ensures failed == FeedGates(cfg, ctx)
    {
      var chainlinkFresh := ctx.chainlinkAge.Some? && ctx.chainlinkAge.value <= cfg.maxChainlinkAge;
      failed := Note([], chainlinkFresh, ChainlinkStale);
      assert failed == Unless(chainlinkFresh, ChainlinkStale);
      failed := Note(failed, ctx.binanceAge.Some? && ctx.binanceAge.value <= cfg.maxBinanceAge, BinanceStale);
      failed := Note(failed, !ctx.bookDirty, BookDirty);
      failed := Note(failed, ctx.ntpOffset.Some? && Abs(ctx.ntpOffset.value) <= cfg.maxNtpOffset, ClockUnsynced);
      failed := Note(failed, !ctx.inTieBand, TieBand);
    }

    method CheckSizing(meta: Meta, i: Intent, ctx: GateContext) returns (failed: seq<Gate>)
      ensures failed == SizingGates(cfg, meta, i, ctx)
    {
      failed := Note([], i.price <= cfg.absoluteMaxPrice, PriceCap);
      assert failed == Unless(i.price <= cfg.absoluteMaxPrice, PriceCap);
      var stake := Stake(i);
      failed := Note(failed, ctx.stakeUsed + stake <= cfg.maxStakePerWindow + SIZE_TOL, WindowStakeCap);
      failed := Note(failed, ctx.openExposure + stake <= cfg.maxOpenExposure + SIZE_TOL, ExposureCap);
      failed := Note(failed, ctx.dailyRealized - stake > -cfg.maxDailyLoss, DailyLossBudget);
      failed := Note(failed, i.size >= meta.minOrderSize, BelowMinSize);
      failed := Note(failed, ctx.topSize >= i.size * cfg.minLiquidityMultiple, ThinBook);
    }
  }
}
