/** What the desk trades and what it settles at, told in books, clocks and prints. */
module DeskLaws {
  import opened Grid
  import opened Orders
  import opened Books
  import opened Exchange
  import opened CoreBounds
  import opened Ledger
  import opened Risk
  import Sessions
  import Rollover
  import opened RolloverSteps
  import opened RolloverClose
  import opened Sniper
  import opened Trading
  import opened TradingSafety
  import opened Intents
  import opened SniperDesk
  import opened DeskBudget

  // ---- what a shot buys

  /** The price is the best ask of the book, and size is on show there. */
  ghost predicate AtBestAsk(b: Book, price: real, size: real) {
    && (exists lv <- b.asks :: lv.price == price && lv.size == size)
    && forall lv <- b.asks :: price <= lv.price
  }

  lemma TopIsBestAsk(b: Book)
    requires BookOnTicks(b) && TopOf(b).ask.Some?
    ensures AtBestAsk(b, TopOf(b).ask.value, TopOf(b).askSize)
  {
    BestIsExtreme(Sell, b.asks);
  }

  /** The current window and the reading, as the sniper needs them to buy an outcome: seconds from the close, model, edge
      over the best ask of that outcome's token, and size. */
  ghost predicate Wanted(su: Setup, d: Desk, r: Reading, i: Intent)
    requires Evaluates(su, d)
  {
    var w := CurrentWindow(su, d);
    var meta := su.metaOf(w.start);
    var token := if i.outcome == Up then meta.upToken else meta.downToken;
    var p := if i.outcome == Up then r.pUp else if r.pUp.Some? then Some(1.0 - r.pUp.value) else None;
    var rate := d.sys.market.FeeOf(meta.upToken);
    && su.mode.enabled && w.k.Some? && p.Some? && p.value >= su.mode.pMin && rate.Some?
    && su.cfg.minSeconds < meta.windowClose as real - r.now <= su.cfg.armSeconds && r.now < meta.windowClose as real
    && i.side == Buy && i.tif == FAK && i.size > 0.0 && i.price <= su.mode.maxPrice
    && (exists shown ::
          && AtBestAsk(d.sys.market.books[token], i.price, shown) && shown > 0.0
          && i.price != 0.0 && Sized(su.cfg, i.price, shown, i.size))
    && p.value - i.price - (if 0.0 < i.price < 1.0 then rate.value * i.price * (1.0 - i.price) else 0.0) - su.mode.slippage
       >= su.mode.minEdge
  }

  lemma ShotWanted(su: Setup, d: Desk, r: Reading)
    requires MarketOnTicks(d.sys.market) && Evaluates(su, d) && VerdictOf(su, d, r).Fire?
    ensures Wanted(su, d, r, VerdictOf(su, d, r).intent)
  {
    var s, i := SightOf(su, d, r), VerdictOf(su, d, r).intent;
    var token := if i.outcome == Up then s.meta.upToken else s.meta.downToken;
    FiresIff(su.mode, su.cfg, s, i);
    PhaseMeans(su.cfg, s.meta, r.now);
    assert BookOnTicks(d.sys.market.books[token]);
    TopIsBestAsk(d.sys.market.books[token]);
    assert AtBestAsk(d.sys.market.books[token], i.price, TopOf(d.sys.market.books[token]).askSize);
  }

  ghost predicate MarketOnTicks(m: Market) {
    forall t <- m.books :: BookOnTicks(m.books[t])
  }

  /** A shot at an outcome becomes an order for the token whose best ask it was priced at. */
  lemma ShotDrafts(su: Setup, d: Desk, r: Reading)
    requires SetupOk(su) && DeskOk(su, d) && Shot(su, d, r).Some?
    requires |After(su, d, Looking(r)).sys.core.orders| > |d.sys.core.orders|
    ensures var i, n, t := VerdictOf(su, d, r).intent, |d.sys.core.orders|, After(su, d, Looking(r)).sys;
            var meta := su.metaOf(CurrentWindow(su, d).start);
            && Wanted(su, d, r, i)
            && |t.core.orders| == n + 1 && t.core.orders[..n] == d.sys.core.orders
            && Asks(t.core.orders[n], meta.slug, meta, i)
            && (exists shown :: shown > 0.0 && t.core.orders[n].token in d.sys.market.books
                  && AtBestAsk(d.sys.market.books[t.core.orders[n].token], t.core.orders[n].price, shown))
  {
    var i, meta := VerdictOf(su, d, r).intent, su.metaOf(CurrentWindow(su, d).start);
    assert MarketOnTicks(d.sys.market);
    ShotWanted(su, d, r);
    IntendMeans(su.cfg, d.sys, meta.slug, i, ViewOf(su, d, r, i.outcome));
    SessionsWindow(su, d.sys.sessions, d.roll, CurrentWindow(su, d).start);
  }

  /** The best ask is at the price, and shows at least so much. */
  ghost predicate Offers(b: Book, price: real, least: real) {
    (exists lv <- b.asks :: lv.price == price && lv.size >= least) && forall lv <- b.asks :: price <= lv.price
  }

  lemma TopOffers(b: Book, price: real, least: real)
    requires BookOnTicks(b) && TopOf(b).ask == Some(price) && TopOf(b).askSize >= least
    ensures Offers(b, price, least)
  {
    BestIsExtreme(Sell, b.asks);
  }

  /** What a shot needs to be admitted: both books clean, a fresh oracle and a fresh spot feed, a synced clock, enough size
      at the best ask, and room in the window's stake, the exposure and the day's loss budget. */
  ghost predicate Admissible(su: Setup, d: Desk, r: Reading, i: Intent, meta: Meta)
    requires meta.upToken in d.sys.market.books && meta.downToken in d.sys.market.books && meta.slug in d.sys.sessions
  {
    var books, token := d.sys.market.books, if i.outcome == Up then meta.upToken else meta.downToken;
    && !r.killed && meta.windowStart >= r.cooldownUntil && !r.inTieBand && meta.feesKnown
    && !books[meta.upToken].dirty && !books[meta.downToken].dirty
    && r.chainlinkAge.Some? && r.chainlinkAge.value <= su.cfg.maxChainlinkAge
    && r.binanceAge.Some? && r.binanceAge.value <= su.cfg.maxBinanceAge
    && r.ntpOffset.Some? && -su.cfg.maxNtpOffset <= r.ntpOffset.value <= su.cfg.maxNtpOffset
    && i.price <= su.cfg.absoluteMaxPrice && i.size >= meta.minOrderSize
    && Offers(books[token], i.price, i.size * su.cfg.minLiquidityMultiple)
    && d.sys.sessions[meta.slug].stake + i.price * i.size <= su.cfg.maxStakePerWindow + 0.000000001
    && r.openExposure + i.price * i.size <= su.cfg.maxOpenExposure + 0.000000001
    && d.sys.accounts.Daily(r.now.Floor / 86400) - i.price * i.size > -su.cfg.maxDailyLoss
  }

  lemma ShotAdmitted(su: Setup, d: Desk, r: Reading)
    requires SetupOk(su) && DeskOk(su, d) && Shot(su, d, r).Some?
    requires |After(su, d, Looking(r)).sys.core.orders| > |d.sys.core.orders|
    ensures var meta := su.metaOf(CurrentWindow(su, d).start);
            meta.slug in d.sys.sessions && Admissible(su, d, r, VerdictOf(su, d, r).intent, meta)
  {
    var i, meta := VerdictOf(su, d, r).intent, su.metaOf(CurrentWindow(su, d).start);
    IntendMeans(su.cfg, d.sys, meta.slug, i, ViewOf(su, d, r, i.outcome));
    SessionsWindow(su, d.sys.sessions, d.roll, CurrentWindow(su, d).start);
    ShotPriced(su, d, r);
    ViewAdmits(su, d, r, i, meta);
  }

  lemma ViewAdmits(su: Setup, d: Desk, r: Reading, i: Intent, meta: Meta)
    requires Evaluates(su, d) && meta == su.metaOf(CurrentWindow(su, d).start) && i.side == Buy
    requires Admitted(su.cfg, d.sys, meta.slug, i, ViewOf(su, d, r, i.outcome)) && d.sys.sessions[meta.slug].meta == meta
    requires var book := d.sys.market.books[if i.outcome == Up then meta.upToken else meta.downToken];
             TopOf(book).ask == Some(i.price) && BookOnTicks(book)
    ensures Admissible(su, d, r, i, meta)
  {
    var v := ViewOf(su, d, r, i.outcome);
    BuyAdmittedIff(su.cfg, d.sys, meta.slug, i, v);
    TopOffers(d.sys.market.books[if i.outcome == Up then meta.upToken else meta.downToken], i.price, i.size * su.cfg.minLiquidityMultiple);
  }

  /** The shot's price is that of the top of its token's book. */
  lemma ShotPriced(su: Setup, d: Desk, r: Reading)
    requires Evaluates(su, d) && VerdictOf(su, d, r).Fire? && MarketFair(d.sys.market)
    ensures var i, meta := VerdictOf(su, d, r).intent, su.metaOf(CurrentWindow(su, d).start);
            var book := d.sys.market.books[if i.outcome == Up then meta.upToken else meta.downToken];
            TopOf(book).ask == Some(i.price) && BookOnTicks(book) && i.side == Buy
  {
    FiresIff(su.mode, su.cfg, SightOf(su, d, r), VerdictOf(su, d, r).intent);
  }

  // ---- what a window settles at

  /** A session resolved by its close and its Price to Beat is paid for the side that won. */
  ghost predicate PaidByRule(s: System, w: Sessions.Window, slug: string) {
    && w.closePrice.Some? && w.k.Some? && slug in s.sessions
    && var up, meta := w.closePrice.value >= w.k.value.k, s.sessions[slug].meta;
       var winner := if up then meta.upToken else meta.downToken;
       && s.sessions[slug].stage == Done(if up then Up else Down)
       && s.accounts.BookFor(slug).realized
          == Some(NetCash(s.core.journal, slug) + Max(NetShares(s.core.journal, slug, winner), 0.0))
  }

  lemma DonePays(s: System, w: Sessions.Window, slug: string)
    requires AccountsOk(s) && slug in s.sessions && w.state == Sessions.Done && Resolved(w) && StageFits(s.sessions[slug].stage, w)
    ensures PaidByRule(s, w, slug)
  {
    RealizedNow(s, slug);
  }

  /** What a rollover step that resolves a window does to its trading session: it went up exactly if the close is at or
      above the Price to Beat, and the session realises its cash and a dollar for every share it holds of that side. */
  lemma SettlesByRule(su: Setup, d: Desk, step: Rollover.Step, id: nat)
    requires SetupOk(su) && DeskOk(su, d) && Rollover.Lawful(su.Timing(), d.roll, step)
    requires id in d.roll.wasCurrent && id < |d.roll.windows| && d.roll.windows[id].state != Sessions.Done
    requires var q := After(su, d, Rolling(step)).roll; id < |q.windows| && q.windows[id].state == Sessions.Done
    ensures var t := After(su, d, Rolling(step)); PaidByRule(t.sys, t.roll.windows[id], su.SlugOf(t.roll.windows[id].start))
  {
    var t := After(su, d, Rolling(step));
    StepAdvances(su.Timing(), d.roll, step, id);
    WasCurrentStays(su, d.roll, step, id);
    RollingOk(su, d, step);
    OwnStage(su, t, id);
    DonePays(t.sys, t.roll.windows[id], su.SlugOf(t.roll.windows[id].start));
  }

  lemma WasCurrentStays(su: Setup, r: Rollover.Roll, step: Rollover.Step, id: nat)
    requires su.cfg.windowLength > 0 && Rollover.Inv(su.Timing(), r) && Rollover.Lawful(su.Timing(), r, step) && id in r.wasCurrent
    ensures id in Rollover.Next(su.Timing(), r, step).wasCurrent
  {
    StepGrew(su.Timing(), r, step);
  }

  lemma OwnStage(su: Setup, d: Desk, id: nat)
    requires Linked(su, d.sys.sessions, d.roll) && id in d.roll.wasCurrent
    ensures id < |d.roll.windows| && su.SlugOf(d.roll.windows[id].start) in d.sys.sessions
    ensures StageFits(d.sys.sessions[su.SlugOf(d.roll.windows[id].start)].stage, d.roll.windows[id])
  {
    assert Fits(d.sys.sessions[su.SlugOf(d.roll.windows[id].start)], d.roll.windows[id]);
  }
}
