/** The shadow trader as one transition system: sessions, gates, order manager, exchange, market and accounts. */
module Trading {
  import opened Grid
  import opened Orders
  import opened Books
  import opened Exchange
  import opened OneOrder
  import opened Projection
  import opened CoreBounds
  import opened Ledger
  import opened Risk

  datatype Stage = Open | Settling | Done(outcome: Outcome)

  datatype Session = Session(meta: Meta, stake: real, stage: Stage)
  {
    predicate Owns(token: string) {
      token == meta.upToken || token == meta.downToken
    }
  }

  /** settled lists the sessions in the order they were settled. */
  datatype System = System(core: Core, market: Market, sessions: map<string, Session>, accounts: Accounts, settled: seq<string>)

  const START: System := System(EMPTY, Market(map[], map[]), map[], Accounts(map[], map[]), [])

  /** What the gates see beyond the trader's own state: anything at all. */
  datatype View = View(now: real, killed: bool, cooldownUntil: int, hasK: bool, topSize: real, bookDirty: bool,
                       chainlinkAge: Option<real>, binanceAge: Option<real>, ntpOffset: Option<real>,
                       inTieBand: bool, openExposure: real)

  datatype Step =
    | OpenSession(meta: Meta)
    | BookEvent(token: string, book: Book)
    | Intend(slug: string, intent: Intent, view: View)
    | SubmitOrder(id: nat, due: int)
    | AskCancelOrder(id: nat, due: int)
    | CancelSession(slug: string, now: int, lag: nat -> nat)
    | ElapseTo(now: int)
    | Tick(tape: Print)
    | CloseSession(slug: string)
    | SettleSession(slug: string, outcome: Outcome)

  function RateOf(meta: Meta): real {
    meta.feeRateBps as real / 10000.0
  }

  function Tracked(books: map<string, Book>, token: string): map<string, Book> {
    if token in books then books else books[token := UNTOUCHED]
  }

  /** The engine's _create_session, as far as trading is concerned. */
  function TrackMarket(m: Market, meta: Meta): Market {
    Market(Tracked(Tracked(m.books, meta.upToken), meta.downToken),
           if meta.feesKnown then m.fees[meta.upToken := RateOf(meta)][meta.downToken := RateOf(meta)] else m.fees)
  }

  /** Untracking at settlement. */
  function UntrackMarket(m: Market, meta: Meta): Market {
    Market(m.books - {meta.upToken, meta.downToken}, m.fees - {meta.upToken, meta.downToken})
  }

  function ContextOf(s: System, slug: string, v: View): GateContext
    requires slug in s.sessions
  {
    GateContext(v.now, v.hasK, s.sessions[slug].stake, v.topSize, v.bookDirty, v.chainlinkAge, v.binanceAge,
                v.ntpOffset, v.inTieBand, v.openExposure, s.accounts.Daily(DayOf(v.now.Floor)))
  }

  predicate Admitted(cfg: Config, s: System, slug: string, i: Intent, v: View) {
    && slug in s.sessions && s.sessions[slug].stage == Open
    && Allowed(i, FailedGates(cfg, v.killed, v.cooldownUntil, s.sessions[slug].meta, i, ContextOf(s, slug, v)))
  }

  /** Accounting hears of every new posting as it is made. */
  function WithCore(s: System, c: Core): System
    requires |s.core.journal| <= |c.journal|
  {
    s.(core := c, accounts := PostAll(s.accounts, c.journal[|s.core.journal|..]))
  }

  function DraftOrder(s: System, slug: string, i: Intent): System
    requires slug in s.sessions
  {
    var sess := s.sessions[slug];
    s.(core := Drafted(s.core, NewOrder(slug, sess.meta.TokenFor(i.outcome), i.side, i.price, i.size, i.tif)),
       sessions := s.sessions[slug := sess.(stake := sess.stake + if i.side == Buy then Stake(i) else 0.0)])
  }

  function Settle(s: System, slug: string, outcome: Outcome): System
    requires slug in s.sessions
  {
    var sess := s.sessions[slug];
    s.(accounts := s.accounts.Settle(sess.meta, outcome),
       market := UntrackMarket(s.market, sess.meta),
       sessions := s.sessions[slug := sess.(stage := Done(outcome))],
       settled := s.settled + [slug])
  }

  /** What the last step raised, if anything, has been caught and logged: trading goes on from where it stopped. */
  function Resumed(s: System): System {
    if s.core.fault then s.(core := Caught(s.core)) else s
  }

  /** One step, after which the core's fault tells whether it raised; whether the step before it did makes no
      difference. */
  ghost function Next(cfg: Config, s: System, step: Step): System {
    Taken(cfg, Resumed(s), step)
  }

  /** A step that does not apply changes nothing. */
  ghost function Taken(cfg: Config, s: System, step: Step): System {
    if !Indexed(s.core) then s
    else
      match step
      case OpenSession(meta) =>
        s.(sessions := s.sessions[meta.slug := Session(meta, 0.0, Open)], market := TrackMarket(s.market, meta))
      case BookEvent(token, book) =>
        if token in s.market.books then s.(market := s.market.(books := s.market.books[token := book])) else s
      case Intend(slug, intent, view) =>
        if Admitted(cfg, s, slug, intent, view) then DraftOrder(s, slug, intent) else s
      case SubmitOrder(id, due) =>
        if id < |s.core.orders| then WithCore(s, Submit(s.core, id, due)) else s
      case AskCancelOrder(id, due) =>
        if id < |s.core.orders| then WithCore(s, RequestCancel(s.core, id, due)) else s
      case CancelSession(slug, now, lag) => WithCore(s, CancelAll(s.core, slug, now, lag))
      case ElapseTo(now) => WithCore(s, ProcessDue(s.core, s.market, now))
      case Tick(tape) =>
        if tape.token in s.market.books then WithCore(s, OnTrade(s.core, s.market, tape)) else s
      case CloseSession(slug) =>
        if slug in s.sessions && s.sessions[slug].stage == Open
        then s.(sessions := s.sessions[slug := s.sessions[slug].(stage := Settling)])
        else s
      case SettleSession(slug, outcome) =>
        if slug in s.sessions && s.sessions[slug].stage == Settling then Settle(s, slug, outcome) else s
  }

  ghost function Run(cfg: Config, s: System, steps: seq<Step>): System
    decreases steps
  {
    if steps == [] then s else Run(cfg, Next(cfg, s, steps[0]), steps[1..])
  }

  /** The environment: each window has its own slug and tokens, fee rates are fractions, and sizes and prices
      are on the lot and tick grids. */
  ghost predicate Lawful(s: System, step: Step) {
    match step
    case OpenSession(meta) =>
      && meta.slug !in s.sessions && meta.upToken != meta.downToken && 0 <= meta.feeRateBps <= 10000
      && forall slug <- s.sessions :: !s.sessions[slug].Owns(meta.upToken) && !s.sessions[slug].Owns(meta.downToken)
    case BookEvent(_, book) => BookOnGrid(book)
    case Intend(_, i, _) => OnLot(i.size) && i.size > 0.0 && OnTick(i.price) && i.price >= 0.0
    case Tick(tape) => OnLot(tape.size)
    case _ => true
  }

  ghost predicate LawfulRun(cfg: Config, s: System, steps: seq<Step>)
    decreases steps
  {
    steps != [] ==> Lawful(s, steps[0]) && LawfulRun(cfg, Next(cfg, s, steps[0]), steps[1..])
  }

  /** The same environment with no lot grid: prices are on the tick grid, sizes are any. */
  ghost predicate Fair(s: System, step: Step) {
    match step
    case OpenSession(_) => Lawful(s, step)
    case BookEvent(_, book) => BookOnTicks(book)
    case Intend(_, i, _) => i.size >= 0.0 && OnTick(i.price) && i.price >= 0.0
    case _ => true
  }

  ghost predicate FairRun(cfg: Config, s: System, steps: seq<Step>)
    decreases steps
  {
    steps != [] ==> Fair(s, steps[0]) && FairRun(cfg, Next(cfg, s, steps[0]), steps[1..])
  }

  /** Some step of the run raises. */
  ghost predicate RaisedIn(cfg: Config, s: System, steps: seq<Step>)
    decreases steps
  {
    steps != [] && (Next(cfg, s, steps[0]).core.fault || RaisedIn(cfg, Next(cfg, s, steps[0]), steps[1..]))
  }

  // ---- the invariant

  ghost predicate CoreOk(c: Core) {
    && !c.fault && Orderly(c)
    && forall i :: 0 <= i < |c.orders| ==> Coupled(LifeOf(c, i))
  }

  ghost predicate MarketOk(m: Market) {
    && (forall t <- m.fees :: 0.0 <= m.fees[t] <= 1.0)
    && (forall t <- m.books :: BookOnGrid(m.books[t]))
  }

  /** Sessions own disjoint pairs of tokens. */
  ghost predicate TokensOk(sessions: map<string, Session>) {
    && (forall slug <- sessions ::
          && sessions[slug].meta.slug == slug
          && sessions[slug].meta.upToken != sessions[slug].meta.downToken)
    && (forall a <- sessions, b <- sessions :: a != b ==>
          !sessions[a].Owns(sessions[b].meta.upToken) && !sessions[a].Owns(sessions[b].meta.downToken))
  }

  predicate RateKnown(m: Market, meta: Meta, token: string) {
    token in m.fees && m.fees[token] * 10000.0 == meta.feeRateBps as real
  }

  /** A market with known fees has its fee rates, its basis points over 10000, while its books are tracked, which they
      are until it settles. */
  ghost predicate TrackingOk(sessions: map<string, Session>, m: Market) {
    && (forall slug <- sessions, t <- m.books ::
          sessions[slug].Owns(t) && sessions[slug].meta.feesKnown ==>
            RateKnown(m, sessions[slug].meta, t))
    && (forall slug <- sessions ::
          && (sessions[slug].meta.upToken in m.books <==> !sessions[slug].stage.Done?)
          && (sessions[slug].meta.downToken in m.books <==> !sessions[slug].stage.Done?))
  }

  /** Every order belongs to a session with known fees and trades one of its tokens. */
  ghost predicate OrdersOwned(s: System) {
    forall o <- s.core.orders ::
      o.slug in s.sessions && s.sessions[o.slug].Owns(o.token) && s.sessions[o.slug].meta.feesKnown
  }

  /** Each book is the fold of its own fills, and is realised exactly when, and as, its session settled. */
  ghost predicate AccountsOk(s: System) {
    && Balanced(s.accounts, s.core.journal)
    && (forall slug :: s.accounts.BookFor(slug).realized ==
          if slug in s.sessions && s.sessions[slug].stage.Done?
          then Some(SettleTotal(s.accounts.BookFor(slug).positions, s.sessions[slug].meta.TokenFor(s.sessions[slug].stage.outcome)))
          else None)
  }

  /** The limit value of the buy orders drafted for a session. */
  function Committed(orders: seq<Order>, slug: string): real {
    if orders == [] then 0.0
    else
      var last := orders[|orders| - 1];
      Committed(orders[..|orders| - 1], slug) + if last.slug == slug && last.side == Buy then Product(last.price, last.size) else 0.0
  }

  ghost predicate StakesOk(cfg: Config, s: System) {
    forall slug <- s.sessions ::
      s.sessions[slug].stake == Committed(s.core.orders, slug) && s.sessions[slug].stake <= cfg.maxStakePerWindow + SIZE_TOL
  }

  function RealizedOf(a: Accounts, slug: string): real {
    if a.BookFor(slug).realized.Some? then a.BookFor(slug).realized.value else 0.0
  }

  /** What the sessions of one day, in settlement order, realised. */
  ghost function DaySum(s: System, slugs: seq<string>, day: int): real {
    if slugs == [] then 0.0
    else
      var last := slugs[|slugs| - 1];
      DaySum(s, slugs[..|slugs| - 1], day)
      + if last in s.sessions && DayOf(s.sessions[last].meta.windowStart) == day then RealizedOf(s.accounts, last) else 0.0
  }

  /** Sessions settle once each, and a day's realised PnL is the sum over its settled sessions. */
  ghost predicate DaysOk(s: System) {
    && (forall i, j :: 0 <= i < j < |s.settled| ==> s.settled[i] != s.settled[j])
    && (forall slug :: slug in s.settled <==> slug in s.sessions && s.sessions[slug].stage.Done?)
    && (forall day :: s.accounts.Daily(day) == DaySum(s, s.settled, day))
  }

  /** What sessions, accounts and stakes keep, whatever becomes of single orders. */
  ghost predicate Base(cfg: Config, s: System) {
    TokensOk(s.sessions) && TrackingOk(s.sessions, s.market) && OrdersOwned(s) && AccountsOk(s) && StakesOk(cfg, s) && DaysOk(s)
  }

  /** What every fair run keeps, exceptions included. */
  ghost predicate Bounded(cfg: Config, s: System) {
    CoreBounded(s.core) && MarketFair(s.market) && Base(cfg, s)
  }

  /** What every lawful run keeps: each order's views agree. */
  ghost predicate Inv(cfg: Config, s: System) {
    CoreOk(s.core) && MarketOk(s.market) && Base(cfg, s)
  }

  lemma StartInv(cfg: Config)
    requires cfg.maxStakePerWindow >= 0.0
    ensures Inv(cfg, START) && Bounded(cfg, START)
  {
  }
}
