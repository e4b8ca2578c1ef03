/** Sessions, stakes and accounts through every fair step of the system, at any sizes and whether or not it raises. */
module TradingBase {
  import opened Grid
  import opened Orders
  import opened Books
  import opened Exchange
  import opened Projection
  import opened NonInterference
  import opened OrderBounds
  import opened CoreBounds
  import opened Ledger
  import opened Risk
  import opened Trading

  // ---- steps of the order manager and the exchange

  /** A step of the core, raising or not: contracts stand, postings are only added, and none for a settled session. */
  ghost predicate Steady(s: System, c: Core) {
    && |c.orders| == |s.core.orders|
    && Orderly(c)
    && s.core.journal <= c.journal
    && forall i :: 0 <= i < |c.orders| ==>
         && SameContract(s.core.orders[i], c.orders[i])
         && (s.core.orders[i].slug in s.sessions && s.sessions[s.core.orders[i].slug].stage.Done? ==>
               FillsOf(c.journal, i) == FillsOf(s.core.journal, i))
  }

  lemma {:induction false} CommittedSame(orders: seq<Order>, others: seq<Order>, slug: string)
    requires |orders| == |others| && forall i :: 0 <= i < |orders| ==> SameContract(orders[i], others[i])
    ensures Committed(orders, slug) == Committed(others, slug)
  {
    if orders != [] {
      CommittedSame(orders[..|orders| - 1], others[..|others| - 1], slug);
    }
  }

  lemma {:induction false} FillsOfConcat(j: seq<Posting>, k: seq<Posting>, id: nat)
    ensures FillsOf(j + k, id) == FillsOf(j, id) + FillsOf(k, id)
  {
    if k == [] {
      assert j + k == j;
    } else {
      assert (j + k)[..|j + k| - 1] == j + k[..|k| - 1];
      FillsOfConcat(j, k[..|k| - 1], id);
    }
  }

  lemma {:induction false} NoFillsNoPosting(k: seq<Posting>, id: nat)
    requires FillsOf(k, id) == []
    ensures forall p <- k :: p.id != id
  {
    if k != [] {
      NoFillsNoPosting(k[..|k| - 1], id);
      assert k == k[..|k| - 1] + [k[|k| - 1]];
    }
  }

  lemma {:induction false} BookUnchanged(j: seq<Posting>, k: seq<Posting>, slug: string)
    requires forall p <- k :: p.slug != slug
    ensures BookOfPostings(j + k, slug) == BookOfPostings(j, slug)
  {
    if k == [] {
      assert j + k == j;
    } else {
      assert (j + k)[..|j + k| - 1] == j + k[..|k| - 1];
      assert k[|k| - 1] in k && forall p <- k[..|k| - 1] :: p in k;
      BookUnchanged(j, k[..|k| - 1], slug);
    }
  }

  /** Where no order of a settled session is filled, its book stays as it was. */
  lemma QuietBookFrozen(s: System, c: Core, slug: string)
    requires Steady(s, c) && slug in s.sessions && s.sessions[slug].stage.Done?
    ensures BookOfPostings(c.journal, slug) == BookOfPostings(s.core.journal, slug)
  {
    var more := c.journal[|s.core.journal|..];
    assert c.journal == s.core.journal + more;
    forall p | p in more ensures p.slug != slug {
      assert p in c.journal;
      if p.slug == slug {
        FillsOfConcat(s.core.journal, more, p.id);
        NoFillsNoPosting(more, p.id);
      }
    }
    BookUnchanged(s.core.journal, more, slug);
  }

  lemma SteadyAccounts(s: System, c: Core)
    requires AccountsOk(s) && Steady(s, c)
    ensures AccountsOk(WithCore(s, c))
    ensures WithCore(s, c).accounts.daily == s.accounts.daily
    ensures forall slug :: WithCore(s, c).accounts.BookFor(slug).realized == s.accounts.BookFor(slug).realized
  {
    var more := c.journal[|s.core.journal|..];
    assert c.journal == s.core.journal + more;
    PostAllBalanced(s.accounts, s.core.journal, more);
    forall slug | slug in s.sessions && s.sessions[slug].stage.Done?
      ensures WithCore(s, c).accounts.BookFor(slug).positions == s.accounts.BookFor(slug).positions
    {
      QuietBookFrozen(s, c, slug);
    }
  }

  lemma {:induction false} DaySumSame(s: System, t: System, slugs: seq<string>, day: int)
    requires forall slug <- slugs ::
               && (slug in s.sessions <==> slug in t.sessions)
               && (slug in s.sessions ==> s.sessions[slug].meta == t.sessions[slug].meta)
               && s.accounts.BookFor(slug).realized == t.accounts.BookFor(slug).realized
    ensures DaySum(s, slugs, day) == DaySum(t, slugs, day)
  {
    if slugs != [] {
      assert slugs[|slugs| - 1] in slugs && forall x <- slugs[..|slugs| - 1] :: x in slugs;
      DaySumSame(s, t, slugs[..|slugs| - 1], day);
    }
  }

  lemma ResumedDays(s: System)
    requires DaysOk(s)
    ensures DaysOk(Resumed(s))
  {
    forall day ensures DaySum(Resumed(s), s.settled, day) == DaySum(s, s.settled, day) {
      DaySumSame(s, Resumed(s), s.settled, day);
    }
  }

  lemma ResumedCore(s: System)
    requires CoreBounded(s.core)
    ensures CoreBounded(Resumed(s).core)
  {
    forall i | 0 <= i < |s.core.orders| ensures Within(LifeOf(Resumed(s).core, i)) && Tallied(LifeOf(Resumed(s).core, i)) {
      assert LifeOf(Resumed(s).core, i) == LifeOf(s.core, i);
    }
  }

  /** Whether the last step raised makes no difference to the bounds. */
  lemma ResumedBounded(cfg: Config, s: System)
    requires Bounded(cfg, s)
    ensures Bounded(cfg, Resumed(s))
  {
    ResumedDays(s);
    ResumedCore(s);
  }

  lemma SteadyStakes(cfg: Config, s: System, c: Core)
    requires StakesOk(cfg, s) && Steady(s, c)
    ensures StakesOk(cfg, WithCore(s, c))
  {
    forall slug | slug in s.sessions ensures Committed(s.core.orders, slug) == Committed(c.orders, slug) {
      CommittedSame(s.core.orders, c.orders, slug);
    }
  }

  lemma SteadyOwned(s: System, c: Core)
    requires OrdersOwned(s) && Steady(s, c)
    ensures OrdersOwned(WithCore(s, c))
  {
    forall o | o in c.orders ensures o.slug in s.sessions && s.sessions[o.slug].Owns(o.token) && s.sessions[o.slug].meta.feesKnown {
      var i :| 0 <= i < |c.orders| && c.orders[i] == o;
      assert SameContract(s.core.orders[i], o) && s.core.orders[i] in s.core.orders;
    }
  }

  lemma SteadyDays(s: System, c: Core)
    requires DaysOk(s) && AccountsOk(s) && Steady(s, c)
    ensures DaysOk(WithCore(s, c))
  {
    var t := WithCore(s, c);
    SteadyAccounts(s, c);
    forall day ensures t.accounts.Daily(day) == DaySum(t, t.settled, day) {
      DaySumSame(s, t, s.settled, day);
    }
  }

  lemma SteadyBase(cfg: Config, s: System, c: Core)
    requires Base(cfg, s) && Steady(s, c)
    ensures Base(cfg, WithCore(s, c))
  {
    SteadyAccounts(s, c);
    SteadyStakes(cfg, s, c);
    SteadyOwned(s, c);
    SteadyDays(s, c);
  }

  /** The orders of settled sessions. */
  predicate Retired(s: System, i: nat)
    requires i < |s.core.orders|
  {
    s.core.orders[i].slug in s.sessions && s.sessions[s.core.orders[i].slug].stage.Done?
  }

  function RetiredOrders(s: System): set<nat> {
    set i: nat | i < |s.core.orders| && Retired(s, i)
  }

  lemma BoundsSteady(s: System, c: Core)
    requires Bounds(s.core, c, RetiredOrders(s))
    ensures Steady(s, c)
  {
    forall i | 0 <= i < |c.orders| && Retired(s, i) ensures FillsOf(c.journal, i) == FillsOf(s.core.journal, i) {
      assert i in RetiredOrders(s);
    }
  }

  lemma RetiredUntracked(cfg: Config, s: System, i: nat)
    requires Base(cfg, s) && i in RetiredOrders(s)
    ensures s.core.orders[i].token !in s.market.books && BookFor(s.core, s.market, i).None?
  {
    assert s.core.orders[i] in s.core.orders;
  }

  /** A call into the order manager or the exchange. */
  predicate TradingStep(step: Step) {
    step.SubmitOrder? || step.AskCancelOrder? || step.CancelSession? || step.ElapseTo? || step.Tick?
  }

  /** From s to t only the core has moved, within bounds. */
  ghost predicate MovedWithin(s: System, t: System, quiet: set<nat>) {
    Bounds(s.core, t.core, quiet) && (t == s || t == WithCore(s, t.core))
  }

  lemma NothingMoved(s: System, quiet: set<nat>)
    requires CoreBounded(s.core)
    ensures MovedWithin(s, s, quiet)
  {
  }

  lemma CoreMoved(s: System, c: Core, quiet: set<nat>)
    requires Bounds(s.core, c, quiet)
    ensures MovedWithin(s, WithCore(s, c), quiet)
  {
  }

  lemma SubmitIs(cfg: Config, s: System, id: nat, due: int, c: Core)
    requires Indexed(s.core) && !s.core.fault && id < |s.core.orders| && c == Submit(s.core, id, due) && s.core.journal <= c.journal
    ensures Next(cfg, s, SubmitOrder(id, due)) == WithCore(s, c)
  {
  }

  lemma CancelAllIs(cfg: Config, s: System, slug: string, now: int, lag: nat -> nat, c: Core)
    requires Indexed(s.core) && !s.core.fault && c == CancelAll(s.core, slug, now, lag) && s.core.journal <= c.journal
    ensures Next(cfg, s, CancelSession(slug, now, lag)) == WithCore(s, c) && c.fault == s.core.fault
  {
  }

  lemma SubmitMoves(cfg: Config, s: System, id: nat, due: int, quiet: set<nat>)
    requires CoreBounded(s.core) && !s.core.fault
    ensures MovedWithin(s, Next(cfg, s, SubmitOrder(id, due)), quiet)
  {
    if id < |s.core.orders| {
      SubmitBounds(s.core, id, due, quiet);
      SubmitIs(cfg, s, id, due, Submit(s.core, id, due));
      CoreMoved(s, Submit(s.core, id, due), quiet);
    } else {
      NothingMoved(s, quiet);
    }
  }

  lemma RequestMoves(cfg: Config, s: System, id: nat, due: int, quiet: set<nat>)
    requires CoreBounded(s.core) && !s.core.fault
    ensures MovedWithin(s, Next(cfg, s, AskCancelOrder(id, due)), quiet) && !Next(cfg, s, AskCancelOrder(id, due)).core.fault
  {
    if id < |s.core.orders| { RequestCancelBounds(s.core, id, due, quiet); } else { NothingMoved(s, quiet); }
  }

  lemma CancelAllMoves(cfg: Config, s: System, slug: string, now: int, lag: nat -> nat, quiet: set<nat>)
    requires CoreBounded(s.core) && !s.core.fault
    ensures MovedWithin(s, Next(cfg, s, CancelSession(slug, now, lag)), quiet)
    ensures !Next(cfg, s, CancelSession(slug, now, lag)).core.fault
  {
    CancelAllBounds(s.core, slug, now, lag, quiet);
    CancelAllIs(cfg, s, slug, now, lag, CancelAll(s.core, slug, now, lag));
    CoreMoved(s, CancelAll(s.core, slug, now, lag), quiet);
  }

  lemma RequestBounds(cfg: Config, s: System, step: Step, quiet: set<nat>)
    requires CoreBounded(s.core) && !s.core.fault && (step.SubmitOrder? || step.AskCancelOrder? || step.CancelSession?)
    ensures MovedWithin(s, Next(cfg, s, step), quiet) && (Next(cfg, s, step).core.fault ==> step.SubmitOrder?)
  {
    match step
    case SubmitOrder(id, due) => SubmitMoves(cfg, s, id, due, quiet);
    case AskCancelOrder(id, due) => RequestMoves(cfg, s, id, due, quiet);
    case CancelSession(slug, now, lag) => CancelAllMoves(cfg, s, slug, now, lag, quiet);
  }

  /** A call into the order manager or the exchange; retired orders stay as they are. */
  lemma CoreBoundsStep(cfg: Config, s: System, step: Step)
    requires Bounded(cfg, s) && !s.core.fault && TradingStep(step)
    ensures var c := Next(cfg, s, step).core;
            Bounds(s.core, c, RetiredOrders(s)) && (Next(cfg, s, step) == s || Next(cfg, s, step) == WithCore(s, c))
    ensures Next(cfg, s, step).core.fault ==> step.SubmitOrder? || step.ElapseTo?
  {
    var quiet := RetiredOrders(s);
    forall i | i in quiet ensures s.core.orders[i].token !in s.market.books && BookFor(s.core, s.market, i).None? {
      RetiredUntracked(cfg, s, i);
    }
    if step.ElapseTo? {
      ElapseMoves(cfg, s, step.now, quiet);
    } else if step.Tick? {
      TickMoves(cfg, s, step.tape, quiet);
    } else {
      RequestBounds(cfg, s, step, quiet);
    }
  }

  lemma ElapseMoves(cfg: Config, s: System, now: int, quiet: set<nat>)
    requires CoreBounded(s.core) && MarketFair(s.market) && !s.core.fault
    requires forall i <- quiet :: i < |s.core.orders| && BookFor(s.core, s.market, i).None?
    ensures MovedWithin(s, Next(cfg, s, ElapseTo(now)), quiet)
  {
    ProcessDueBounds(s.core, s.market, now, quiet);
    CoreMoved(s, ProcessDue(s.core, s.market, now), quiet);
  }

  lemma TickMoves(cfg: Config, s: System, tape: Print, quiet: set<nat>)
    requires Base(cfg, s) && CoreBounded(s.core) && MarketFair(s.market) && !s.core.fault
    requires forall i <- quiet :: i < |s.core.orders| && s.core.orders[i].token !in s.market.books
    ensures MovedWithin(s, Next(cfg, s, Tick(tape)), quiet) && !Next(cfg, s, Tick(tape)).core.fault
  {
    if tape.token in s.market.books {
      TickBounds(cfg, s, tape, quiet);
      CoreMoved(s, OnTrade(s.core, s.market, tape), quiet);
    } else {
      NothingMoved(s, quiet);
    }
  }

  /** A print of a tracked token, which never raises. */
  lemma TickBounds(cfg: Config, s: System, tape: Print, quiet: set<nat>)
    requires Base(cfg, s) && CoreBounded(s.core) && MarketFair(s.market) && !s.core.fault && tape.token in s.market.books
    requires forall i <- quiet :: i < |s.core.orders| && s.core.orders[i].token !in s.market.books
    ensures Bounds(s.core, OnTrade(s.core, s.market, tape), quiet) && !OnTrade(s.core, s.market, tape).fault
  {
    FeeWhileTracked(cfg, s, tape.token);
    TapeAllBounds(s.core, s.market, RestIds(s.core.resting), tape, quiet);
  }

  /** The rate at which an order's taker fees are charged is its session's own. */
  lemma OwnRate(cfg: Config, s: System, i: nat)
    requires Base(cfg, s) && i < |s.core.orders| && s.core.orders[i].token in s.market.books
    ensures s.core.orders[i].slug in s.sessions
    ensures FeeFor(s.core, s.market, i) == Some(s.sessions[s.core.orders[i].slug].meta.feeRateBps as real / 10000.0)
  {
    assert s.core.orders[i] in s.core.orders;
  }

  /** A token that some order trades has its fee rate for as long as its book is tracked. */
  lemma FeeWhileTracked(cfg: Config, s: System, token: string)
    requires Base(cfg, s) && token in s.market.books
    ensures s.market.FeeOf(token).Some? || forall i :: 0 <= i < |s.core.orders| ==> s.core.orders[i].token != token
  {
    if i :| 0 <= i < |s.core.orders| && s.core.orders[i].token == token {
      assert s.core.orders[i] in s.core.orders;
    }
  }

  /** A step of trading proper: steady, and bounded again. */
  lemma CoreStepBounded(cfg: Config, s: System, step: Step)
    requires Bounded(cfg, s) && !s.core.fault
    requires TradingStep(step)
    ensures Steady(s, Next(cfg, s, step).core) && Bounded(cfg, Next(cfg, s, step))
    ensures Next(cfg, s, step).core.fault ==> step.SubmitOrder? || step.ElapseTo?
    ensures Next(cfg, s, step) == s || Next(cfg, s, step) == WithCore(s, Next(cfg, s, step).core)
  {
    CoreBoundsStep(cfg, s, step);
    BoundsSteady(s, Next(cfg, s, step).core);
    SteadyBase(cfg, s, Next(cfg, s, step).core);
  }

  /** A step of trading, raising or not, leaves the book of a settled session as it was: its tokens are untracked. */
  lemma SettledBookFrozen(cfg: Config, s: System, step: Step, slug: string)
    requires Bounded(cfg, s) && TradingStep(step) && slug in s.sessions && s.sessions[slug].stage.Done?
    ensures BookOfPostings(Next(cfg, s, step).core.journal, slug) == BookOfPostings(s.core.journal, slug)
  {
    ResumedBounded(cfg, s);
    CoreStepBounded(cfg, Resumed(s), step);
    QuietBookFrozen(Resumed(s), Next(cfg, s, step).core, slug);
  }

  // ---- steps of the engine, the feeds and accounting

  /** The sessions that are settled, and how, are the same. */
  ghost predicate SameSettled(s: System, t: System) {
    && t.accounts == s.accounts && t.settled == s.settled && t.core.journal == s.core.journal
    && (forall slug <- s.sessions :: slug in t.sessions && t.sessions[slug].meta == s.sessions[slug].meta)
    && (forall slug <- s.sessions :: s.sessions[slug].stage.Done? ==> t.sessions[slug].stage == s.sessions[slug].stage)
    && (forall slug <- t.sessions :: t.sessions[slug].stage.Done? ==> slug in s.sessions && s.sessions[slug].stage.Done?)
  }

  lemma SettledFrame(s: System, t: System)
    requires SameSettled(s, t) && DaysOk(s) && AccountsOk(s)
    ensures DaysOk(t) && AccountsOk(t)
  {
    forall day ensures DaySum(t, t.settled, day) == DaySum(s, s.settled, day) {
      DaySumSame(s, t, s.settled, day);
    }
  }

  function Opened(s: System, meta: Meta): System {
    s.(sessions := s.sessions[meta.slug := Session(meta, 0.0, Open)], market := TrackMarket(s.market, meta))
  }

  lemma OpenSessionSettled(s: System, meta: Meta)
    requires DaysOk(s) && AccountsOk(s) && meta.slug !in s.sessions
    ensures DaysOk(Opened(s, meta)) && AccountsOk(Opened(s, meta))
  {
    SettledFrame(s, Opened(s, meta));
  }

  lemma OpenSessionOwned(cfg: Config, s: System, meta: Meta)
    requires OrdersOwned(s) && StakesOk(cfg, s) && meta.slug !in s.sessions && cfg.maxStakePerWindow >= 0.0
    ensures OrdersOwned(Opened(s, meta)) && StakesOk(cfg, Opened(s, meta))
  {
    NothingCommitted(s.core.orders, meta.slug);
  }

  lemma OpenSessionTokens(s: System, meta: Meta)
    requires TokensOk(s.sessions) && Lawful(s, OpenSession(meta))
    ensures TokensOk(Opened(s, meta).sessions)
  {
  }

  lemma OpenSessionTracking(s: System, meta: Meta)
    requires TrackingOk(s.sessions, s.market) && Lawful(s, OpenSession(meta))
    ensures TrackingOk(Opened(s, meta).sessions, Opened(s, meta).market)
  {
    var t := Opened(s, meta);
    assert forall x <- t.market.books :: x in s.market.books || x == meta.upToken || x == meta.downToken;
    forall slug, x | slug in t.sessions && x in t.market.books && t.sessions[slug].Owns(x) && t.sessions[slug].meta.feesKnown
      ensures RateKnown(t.market, t.sessions[slug].meta, x)
    {
      if slug == meta.slug {
        OwnRateKnown(s.market, meta, x);
      } else {
        assert s.sessions[slug].Owns(x) && RateKnown(s.market, s.sessions[slug].meta, x);
      }
    }
  }

  lemma OwnRateKnown(m: Market, meta: Meta, token: string)
    requires meta.feesKnown && (token == meta.upToken || token == meta.downToken)
    ensures RateKnown(TrackMarket(m, meta), meta, token)
  {
  }

  lemma {:induction false} NothingCommitted(orders: seq<Order>, slug: string)
    requires forall o <- orders :: o.slug != slug
    ensures Committed(orders, slug) == 0.0
  {
    if orders != [] {
      assert orders[|orders| - 1] in orders && forall o <- orders[..|orders| - 1] :: o in orders;
      NothingCommitted(orders[..|orders| - 1], slug);
    }
  }

  function Mirrored(s: System, token: string, book: Book): System {
    s.(market := s.market.(books := s.market.books[token := book]))
  }

  lemma BookEventSettled(s: System, token: string, book: Book)
    requires DaysOk(s) && AccountsOk(s)
    ensures DaysOk(Mirrored(s, token, book)) && AccountsOk(Mirrored(s, token, book))
  {
    SettledFrame(s, Mirrored(s, token, book));
  }

  lemma CommittedAppend(orders: seq<Order>, o: Order, slug: string)
    ensures Committed(orders + [o], slug) ==
            Committed(orders, slug) + if o.slug == slug && o.side == Buy then Product(o.price, o.size) else 0.0
  {
    assert (orders + [o])[..|orders|] == orders;
  }

  lemma DraftStakes(cfg: Config, s: System, slug: string, i: Intent)
    requires StakesOk(cfg, s) && slug in s.sessions
    requires i.side == Buy ==> s.sessions[slug].stake + Stake(i) <= cfg.maxStakePerWindow + SIZE_TOL
    ensures StakesOk(cfg, DraftOrder(s, slug, i))
  {
    var t := DraftOrder(s, slug, i);
    forall x | x in s.sessions { CommittedAppend(s.core.orders, t.core.orders[|s.core.orders|], x); }
  }

  lemma DraftSettled(s: System, slug: string, i: Intent)
    requires DaysOk(s) && AccountsOk(s) && slug in s.sessions
    ensures DaysOk(DraftOrder(s, slug, i)) && AccountsOk(DraftOrder(s, slug, i))
  {
    SettledFrame(s, DraftOrder(s, slug, i));
  }

  lemma DraftOwned(s: System, slug: string, i: Intent)
    requires OrdersOwned(s) && slug in s.sessions && s.sessions[slug].meta.feesKnown
    ensures OrdersOwned(DraftOrder(s, slug, i))
  {
  }

  /** Changing a session's stake or closing it changes nothing about its tokens. */
  lemma RestagedTokens(s: System, sessions: map<string, Session>)
    requires TokensOk(s.sessions) && TrackingOk(s.sessions, s.market)
    requires sessions.Keys == s.sessions.Keys
    requires forall slug <- sessions :: sessions[slug].meta == s.sessions[slug].meta
    requires forall slug <- sessions :: sessions[slug].stage.Done? <==> s.sessions[slug].stage.Done?
    ensures TokensOk(sessions) && TrackingOk(sessions, s.market)
  {
    SameMetasTokens(s.sessions, sessions);
    forall slug, t | slug in sessions && t in s.market.books && sessions[slug].Owns(t) && sessions[slug].meta.feesKnown
      ensures RateKnown(s.market, sessions[slug].meta, t)
    {
      assert s.sessions[slug].Owns(t);
    }
  }

  lemma SameMetasTokens(ss: map<string, Session>, ts: map<string, Session>)
    requires TokensOk(ss) && ts.Keys == ss.Keys && forall slug <- ts :: ts[slug].meta == ss[slug].meta
    ensures TokensOk(ts)
  {
    assert forall slug <- ts, t: string :: ts[slug].Owns(t) == ss[slug].Owns(t);
  }

  function AwaitingClose(s: System, slug: string): System
    requires slug in s.sessions
  {
    s.(sessions := s.sessions[slug := s.sessions[slug].(stage := Settling)])
  }

  lemma CloseSettled(s: System, slug: string)
    requires DaysOk(s) && AccountsOk(s) && slug in s.sessions && s.sessions[slug].stage == Open
    ensures DaysOk(AwaitingClose(s, slug)) && AccountsOk(AwaitingClose(s, slug))
  {
    SettledFrame(s, AwaitingClose(s, slug));
  }

  lemma SettleDays(s: System, slug: string, outcome: Outcome)
    requires DaysOk(s) && slug in s.sessions && s.sessions[slug].stage == Settling && s.sessions[slug].meta.slug == slug
    ensures DaysOk(Settle(s, slug, outcome))
  {
    var t := Settle(s, slug, outcome);
    assert slug !in s.settled;
    forall day ensures t.accounts.Daily(day) == DaySum(t, t.settled, day) {
      assert t.settled[..|t.settled| - 1] == s.settled;
      DaySumSame(s, t, s.settled, day);
    }
  }

  lemma SettleTracking(s: System, slug: string, outcome: Outcome)
    requires TokensOk(s.sessions) && TrackingOk(s.sessions, s.market) && slug in s.sessions
    ensures TokensOk(Settle(s, slug, outcome).sessions)
    ensures TrackingOk(Settle(s, slug, outcome).sessions, Settle(s, slug, outcome).market)
  {
    var t := Settle(s, slug, outcome);
    SameMetasTokens(s.sessions, t.sessions);
    SettleUntracks(s, slug, outcome);
    forall x, token | x in t.sessions && token in t.market.books && t.sessions[x].Owns(token) && t.sessions[x].meta.feesKnown
      ensures RateKnown(t.market, t.sessions[x].meta, token)
    {
      assert s.sessions[x].Owns(token) && RateKnown(s.market, s.sessions[x].meta, token);
    }
  }

  lemma SettleUntracks(s: System, slug: string, outcome: Outcome)
    requires TokensOk(s.sessions) && TrackingOk(s.sessions, s.market) && slug in s.sessions
    ensures var t := Settle(s, slug, outcome);
            forall x <- t.sessions ::
              && (t.sessions[x].meta.upToken in t.market.books <==> !t.sessions[x].stage.Done?)
              && (t.sessions[x].meta.downToken in t.market.books <==> !t.sessions[x].stage.Done?)
  {
    var t := Settle(s, slug, outcome);
    forall x | x in t.sessions && x != slug
      ensures (t.sessions[x].meta.upToken in t.market.books <==> s.sessions[x].meta.upToken in s.market.books)
      ensures (t.sessions[x].meta.downToken in t.market.books <==> s.sessions[x].meta.downToken in s.market.books)
    {
      assert !s.sessions[x].Owns(s.sessions[slug].meta.upToken) && !s.sessions[x].Owns(s.sessions[slug].meta.downToken);
    }
  }

  lemma SettleStakes(cfg: Config, s: System, slug: string, outcome: Outcome)
    requires OrdersOwned(s) && StakesOk(cfg, s) && slug in s.sessions
    ensures OrdersOwned(Settle(s, slug, outcome)) && StakesOk(cfg, Settle(s, slug, outcome))
  {
  }

  lemma SettleAccounts(s: System, slug: string, outcome: Outcome)
    requires AccountsOk(s) && slug in s.sessions && s.sessions[slug].meta.slug == slug
    ensures AccountsOk(Settle(s, slug, outcome))
  {
  }

  lemma OpenSessionBase(cfg: Config, s: System, meta: Meta)
    requires Base(cfg, s) && Lawful(s, OpenSession(meta)) && cfg.maxStakePerWindow >= 0.0
    ensures Base(cfg, Opened(s, meta))
  {
    OpenSessionSettled(s, meta);
    OpenSessionTokens(s, meta);
    OpenSessionTracking(s, meta);
    OpenSessionOwned(cfg, s, meta);
  }

  lemma OpenSessionFair(s: System, meta: Meta)
    requires MarketFair(s.market) && 0 <= meta.feeRateBps <= 10000
    ensures MarketFair(TrackMarket(s.market, meta))
  {
  }

  lemma BookEventBase(cfg: Config, s: System, token: string, book: Book)
    requires Base(cfg, s) && token in s.market.books
    ensures Base(cfg, Mirrored(s, token, book))
  {
    BookEventSettled(s, token, book);
    assert Mirrored(s, token, book).market.books.Keys == s.market.books.Keys;
  }

  lemma DraftBase(cfg: Config, s: System, slug: string, i: Intent, v: View)
    requires Base(cfg, s) && Admitted(cfg, s, slug, i, v)
    ensures Base(cfg, DraftOrder(s, slug, i))
  {
    AllowedMeans(cfg, v.killed, v.cooldownUntil, s.sessions[slug].meta, i, ContextOf(s, slug, v));
    DraftStakes(cfg, s, slug, i);
    DraftSettled(s, slug, i);
    DraftOwned(s, slug, i);
    RestagedTokens(s, DraftOrder(s, slug, i).sessions);
  }

  lemma DraftBounded(s: System, slug: string, i: Intent)
    requires CoreBounded(s.core) && !s.core.fault && slug in s.sessions
    requires i.size >= 0.0 && OnTick(i.price) && i.price >= 0.0
    ensures CoreBounded(DraftOrder(s, slug, i).core)
  {
    DraftedBounds(s.core, NewOrder(slug, s.sessions[slug].meta.TokenFor(i.outcome), i.side, i.price, i.size, i.tif));
  }

  lemma CloseBase(cfg: Config, s: System, slug: string)
    requires Base(cfg, s) && slug in s.sessions && s.sessions[slug].stage == Open
    ensures Base(cfg, AwaitingClose(s, slug))
  {
    CloseSettled(s, slug);
    RestagedTokens(s, AwaitingClose(s, slug).sessions);
  }

  lemma SettleBase(cfg: Config, s: System, slug: string, outcome: Outcome)
    requires Base(cfg, s) && slug in s.sessions && s.sessions[slug].stage == Settling
    ensures Base(cfg, Settle(s, slug, outcome))
  {
    SettleDays(s, slug, outcome);
    SettleTracking(s, slug, outcome);
    SettleStakes(cfg, s, slug, outcome);
    SettleAccounts(s, slug, outcome);
  }

  // ---- every step

  lemma SessionStepBounded(cfg: Config, s: System, step: Step)
    requires Bounded(cfg, s) && !s.core.fault && Fair(s, step) && cfg.maxStakePerWindow >= 0.0
    requires step.OpenSession? || step.CloseSession? || step.SettleSession?
    ensures Bounded(cfg, Next(cfg, s, step))
  {
    match step
    case OpenSession(meta) => OpenBounded(cfg, s, meta);
    case CloseSession(slug) =>
      if slug in s.sessions && s.sessions[slug].stage == Open { CloseBase(cfg, s, slug); }
    case SettleSession(slug, outcome) =>
      if slug in s.sessions && s.sessions[slug].stage == Settling { SettleBase(cfg, s, slug, outcome); }
  }

  lemma OpenBounded(cfg: Config, s: System, meta: Meta)
    requires Bounded(cfg, s) && !s.core.fault && Fair(s, OpenSession(meta)) && cfg.maxStakePerWindow >= 0.0
    ensures Bounded(cfg, Next(cfg, s, OpenSession(meta)))
  {
    OpenSessionBase(cfg, s, meta);
    OpenSessionFair(s, meta);
    assert Next(cfg, s, OpenSession(meta)) == Opened(s, meta);
  }

  /** Every fair step, raising or not, keeps bounds, stakes and accounts. */
  lemma StepBounded(cfg: Config, s: System, step: Step)
    requires Bounded(cfg, s) && Fair(s, step) && cfg.maxStakePerWindow >= 0.0
    ensures Bounded(cfg, Next(cfg, s, step))
    ensures Next(cfg, s, step).core.fault ==> step.SubmitOrder? || step.ElapseTo?
    decreases s.core.fault
  {
    if s.core.fault {
      ResumedBounded(cfg, s);
      StepBounded(cfg, Resumed(s), step);
    } else if step.OpenSession? || step.CloseSession? || step.SettleSession? {
      SessionStepBounded(cfg, s, step);
    } else if step.BookEvent? {
      if step.token in s.market.books { BookEventBase(cfg, s, step.token, step.book); }
    } else if step.Intend? {
      if Admitted(cfg, s, step.slug, step.intent, step.view) {
        DraftBase(cfg, s, step.slug, step.intent, step.view);
        DraftBounded(s, step.slug, step.intent);
      }
    } else {
      CoreStepBounded(cfg, s, step);
    }
  }

  lemma {:induction false} RunBounded(cfg: Config, s: System, steps: seq<Step>)
    requires Bounded(cfg, s) && FairRun(cfg, s, steps) && cfg.maxStakePerWindow >= 0.0
    ensures Bounded(cfg, Run(cfg, s, steps))
    decreases steps
  {
    if steps != [] {
      StepBounded(cfg, s, steps[0]);
      RunBounded(cfg, Next(cfg, s, steps[0]), steps[1..]);
    }
  }
}
