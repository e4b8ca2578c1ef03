/** What becomes of an intent: whether it is admitted, and which order it becomes, field by field; and what opening,
    closing and settling a session changes. */
module Intents {
  import opened Grid
  import opened Orders
  import opened Books
  import opened Exchange
  import opened Ledger
  import opened Risk
  import opened Trading

  /** The order that an intent for a window asks for. */
  predicate Asks(o: Order, slug: string, meta: Meta, i: Intent) {
    && o.slug == slug && o.token == (if i.outcome == Up then meta.upToken else meta.downToken)
    && o.side == i.side && o.price == i.price && o.size == i.size && o.tif == i.tif
    && o.state == Draft && o.filled == 0.0 && o.feeShares == 0.0 && o.feeUsdc == 0.0 && !o.cancelRequested && o.seen == {}
  }

  /** An admitted intent becomes exactly one new order, and a buy uses its value of the window's stake; nothing else of the
      system changes. An intent that is not admitted changes nothing at all. */
  lemma IntendMeans(cfg: Config, s: System, slug: string, i: Intent, v: View)
    requires Indexed(s.core)
    ensures var t, n := Next(cfg, s, Intend(slug, i, v)), |s.core.orders|;
            if Admitted(cfg, s, slug, i, v) then
              && |t.core.orders| == n + 1 && t.core.orders[..n] == s.core.orders
              && Asks(t.core.orders[n], slug, s.sessions[slug].meta, i)
              && t.core == s.core.(orders := t.core.orders, fault := false)
              && t.market == s.market && t.accounts == s.accounts && t.settled == s.settled
              && t.sessions == s.sessions[slug := s.sessions[slug].(stake :=
                   if i.side == Buy then s.sessions[slug].stake + i.price * i.size else s.sessions[slug].stake)]
            else
              t == s.(core := s.core.(fault := false))
  {
    var t, n := Next(cfg, s, Intend(slug, i, v)), |s.core.orders|;
    assert Admitted(cfg, Resumed(s), slug, i, v) == Admitted(cfg, s, slug, i, v);
    if Admitted(cfg, s, slug, i, v) {
      assert t == DraftOrder(Resumed(s), slug, i);
      assert t.core.orders[..n] == s.core.orders;
      assert Product(i.price, i.size) == i.price * i.size;
    }
  }

  /** A buy is admitted exactly if its window is open to it and every gate passes, each told in the trader's own state and
      what the gates are shown. */
  lemma BuyAdmittedIff(cfg: Config, s: System, slug: string, i: Intent, v: View)
    requires i.side == Buy
    ensures Admitted(cfg, s, slug, i, v)
            <==> && slug in s.sessions && s.sessions[slug].stage == Open
                 && var meta := s.sessions[slug].meta;
                    && !v.killed && meta.windowStart >= v.cooldownUntil && v.hasK && meta.feesKnown && !v.bookDirty
                    && v.chainlinkAge.Some? && v.chainlinkAge.value <= cfg.maxChainlinkAge
                    && v.binanceAge.Some? && v.binanceAge.value <= cfg.maxBinanceAge
                    && v.ntpOffset.Some? && -cfg.maxNtpOffset <= v.ntpOffset.value <= cfg.maxNtpOffset
                    && i.price <= cfg.absoluteMaxPrice
                    && EntryTime(cfg, meta, v.now) && !v.inTieBand
                    && s.sessions[slug].stake + i.price * i.size <= cfg.maxStakePerWindow + 0.000000001
                    && v.openExposure + i.price * i.size <= cfg.maxOpenExposure + 0.000000001
                    && s.accounts.Daily(v.now.Floor / 86400) - i.price * i.size > -cfg.maxDailyLoss
                    && i.size >= meta.minOrderSize && v.topSize >= i.size * cfg.minLiquidityMultiple
  {
    if slug in s.sessions {
      EntryAllowedIff(cfg, v.killed, v.cooldownUntil, s.sessions[slug].meta, i, ContextOf(s, slug, v));
    }
  }

  /** A sale needs a tradable market and nothing else. */
  lemma SaleAdmittedIff(cfg: Config, s: System, slug: string, i: Intent, v: View)
    requires i.side == Sell
    ensures Admitted(cfg, s, slug, i, v)
            <==> && slug in s.sessions && s.sessions[slug].stage == Open
                 && var meta := s.sessions[slug].meta;
                    && !v.killed && meta.windowStart >= v.cooldownUntil && v.hasK && meta.feesKnown && !v.bookDirty
                    && v.chainlinkAge.Some? && v.chainlinkAge.value <= cfg.maxChainlinkAge
                    && v.binanceAge.Some? && v.binanceAge.value <= cfg.maxBinanceAge
                    && v.ntpOffset.Some? && -cfg.maxNtpOffset <= v.ntpOffset.value <= cfg.maxNtpOffset
                    && i.price <= cfg.absoluteMaxPrice
  {
    if slug in s.sessions {
      ExitAllowedIff(cfg, v.killed, v.cooldownUntil, s.sessions[slug].meta, i, ContextOf(s, slug, v));
    }
  }

  // ---- sessions

  /** A market once a session's tokens are tracked: both books are as they were or untouched, and the fee rate is known if
      the session's fees are. */
  ghost predicate TrackedAs(m: Market, n: Market, meta: Meta) {
    var own := {meta.upToken, meta.downToken};
    && n.books.Keys == m.books.Keys + own
    && (forall x <- n.books :: n.books[x] == if x in m.books then m.books[x] else Book([], [], true))
    && (forall x :: x in n.fees <==> x in m.fees || (meta.feesKnown && x in own))
    && (forall x <- n.fees :: n.fees[x] == if meta.feesKnown && x in own then meta.feeRateBps as real / 10000.0 else m.fees[x])
  }

  lemma TrackMeans(m: Market, meta: Meta)
    ensures TrackedAs(m, TrackMarket(m, meta), meta)
  {
  }

  /** Opening a session: no stake yet, and its tokens tracked. */
  lemma OpenMeans(cfg: Config, s: System, meta: Meta)
    requires Indexed(s.core)
    ensures var t := Next(cfg, s, OpenSession(meta));
            && t == s.(core := s.core.(fault := false), market := t.market, sessions := s.sessions[meta.slug := Session(meta, 0.0, Open)])
            && TrackedAs(s.market, t.market, meta)
  {
    TrackMeans(s.market, meta);
  }

  /** A book event replaces the book of a tracked token. */
  lemma BookMeans(cfg: Config, s: System, token: string, book: Book)
    requires Indexed(s.core)
    ensures Next(cfg, s, BookEvent(token, book))
            == s.(core := s.core.(fault := false),
                  market := if token in s.market.books then s.market.(books := s.market.books[token := book]) else s.market)
  {
  }

  /** Closing moves an open session on to waiting for its close, and nothing else. */
  lemma CloseMeans(cfg: Config, s: System, slug: string)
    requires Indexed(s.core)
    ensures Next(cfg, s, CloseSession(slug))
            == s.(core := s.core.(fault := false),
                  sessions := if slug in s.sessions && s.sessions[slug].stage == Open
                              then s.sessions[slug := s.sessions[slug].(stage := Settling)] else s.sessions)
  {
  }

  /** The accounts once a session has settled: its own and its day's result, which is the cash of its book and a dollar for
      each share it holds of the winning token. */
  ghost predicate BookedAs(a: Accounts, b: Accounts, meta: Meta, outcome: Outcome) {
    var book := a.BookFor(meta.slug);
    var winner := if outcome == Up then meta.upToken else meta.downToken;
    var result := CashOf(book.positions) + Max(SharesOf(book.positions, winner), 0.0);
    && b.BookFor(meta.slug) == book.(realized := Some(result))
    && (forall x :: x != meta.slug ==> b.BookFor(x) == a.BookFor(x))
    && forall day :: b.Daily(day) == a.Daily(day) + if day == meta.windowStart / 86400 then result else 0.0
  }

  lemma BookingMeans(a: Accounts, journal: seq<Posting>, meta: Meta, outcome: Outcome)
    requires Balanced(a, journal)
    ensures BookedAs(a, a.Settle(meta, outcome), meta, outcome)
  {
    BookOnePerToken(journal, meta.slug);
    assert a.BookFor(meta.slug).positions == BookOfPostings(journal, meta.slug).positions;
    SettleClosedForm(a.BookFor(meta.slug).positions, meta.TokenFor(outcome));
  }

  /** Settling a session that waits for its close: its stage, its result, and its tokens tracked no longer. Nothing happens
      to any other. */
  lemma SettleMeans(cfg: Config, s: System, slug: string, outcome: Outcome)
    requires Indexed(s.core) && AccountsOk(s)
    ensures var t := Next(cfg, s, SettleSession(slug, outcome));
            if slug in s.sessions && s.sessions[slug].stage == Settling then
              var sess := s.sessions[slug];
              var own := {sess.meta.upToken, sess.meta.downToken};
              && t == s.(core := s.core.(fault := false), accounts := t.accounts, settled := s.settled + [slug],
                         sessions := s.sessions[slug := sess.(stage := Done(outcome))],
                         market := Market(s.market.books - own, s.market.fees - own))
              && BookedAs(s.accounts, t.accounts, sess.meta, outcome)
            else
              t == s.(core := s.core.(fault := false))
  {
    if slug in s.sessions && s.sessions[slug].stage == Settling {
      BookingMeans(s.accounts, s.core.journal, s.sessions[slug].meta, outcome);
    }
  }
}
