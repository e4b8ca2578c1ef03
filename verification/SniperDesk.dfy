/** The sniper at its desk: the session rollover, the sniper's evaluations and the shadow trader as one system. */
module SniperDesk {
  import opened Grid
  import opened Orders
  import opened Books
  import opened Ledger
  import opened Risk
  import opened KCapture
  import Sessions
  import Rollover
  import opened RolloverSteps
  import opened Sniper
  import opened Trading
  import opened DailyBudget

  /** What is fixed: settings, and the market that discovery finds for each window. */
  datatype Setup = Setup(mode: Mode, cfg: Config, prefetch: real, metaOf: int -> Meta)
  {
    function Timing(): Rollover.Timing {
      Rollover.Timing(cfg.windowLength, prefetch)
    }

    function SlugOf(ws: int): string {
      metaOf(ws).slug
    }
  }

  /** looks is the history of the sniper's evaluations; its memory is Watch(looks).fired. */
  datatype Desk = Desk(sys: System, roll: Rollover.Roll, looks: seq<Look>)

  const OPENING: Desk := Desk(Trading.START, Rollover.START, [])

  /** What an evaluation reads from outside the model: anything at all. */
  datatype Reading = Reading(now: real, pUp: Option<real>, killed: bool, cooldownUntil: int, chainlinkAge: Option<real>,
                             binanceAge: Option<real>, ntpOffset: Option<real>, inTieBand: bool, openExposure: real)

  datatype Event =
    | Rolling(step: Rollover.Step)
    | Looking(reading: Reading)
    | Outside(act: Step)

  /** OrderBook.top, the ask side. */
  function TopOf(b: Book): Top {
    var ask := Best(Sell, b.asks);
    if ask.None? then Top(None, 0.0) else Top(Some(ask.value.price), ask.value.size)
  }

  // ---- the engine's evaluate

  /** The session evaluate works on: the current one, while it is active and both its books are tracked. */
  predicate Evaluates(su: Setup, d: Desk) {
    && d.roll.current.Some? && d.roll.current.value < |d.roll.windows|
    && var w := d.roll.windows[d.roll.current.value];
       && w.state == Sessions.Active
       && su.metaOf(w.start).upToken in d.sys.market.books && su.metaOf(w.start).downToken in d.sys.market.books
  }

  function CurrentWindow(su: Setup, d: Desk): Sessions.Window
    requires Evaluates(su, d)
  {
    d.roll.windows[d.roll.current.value]
  }

  /** _build_context, for the sniper. */
  function SightOf(su: Setup, d: Desk, r: Reading): Sight
    requires Evaluates(su, d)
  {
    var w := CurrentWindow(su, d);
    var meta := su.metaOf(w.start);
    var books := d.sys.market.books;
    Sight(meta, PhaseAt(su.cfg, meta, r.now), r.pUp, d.sys.market.FeeOf(meta.upToken), w.k.Some?,
          TopOf(books[meta.upToken]), TopOf(books[meta.downToken]))
  }

  /** SniperStrategy.evaluate, with the memory its evaluations so far have left. */
  function VerdictOf(su: Setup, d: Desk, r: Reading): Verdict
    requires Evaluates(su, d)
  {
    var s := SightOf(su, d, r);
    if s.meta.windowStart in Watch(d.looks).fired then Hold else Decide(su.mode, su.cfg, s)
  }

  function LookOf(su: Setup, d: Desk, r: Reading): Look
    requires Evaluates(su, d)
  {
    var s := SightOf(su, d, r);
    Look(s.meta.windowStart, Decide(su.mode, su.cfg, s).Fire?)
  }

  /** What _handle_intent shows the gates. */
  function ViewOf(su: Setup, d: Desk, r: Reading, outcome: Outcome): View
    requires Evaluates(su, d)
  {
    var s := SightOf(su, d, r);
    var books := d.sys.market.books;
    var top := if outcome == Up then s.up else s.down;
    View(r.now, r.killed, r.cooldownUntil, s.hasK, if top.ask.Some? then top.askSize else 0.0,
         books[s.meta.upToken].dirty || books[s.meta.downToken].dirty,
         r.chainlinkAge, r.binanceAge, r.ntpOffset, r.inTieBand, r.openExposure)
  }

  /** The order an evaluation asks for, if any. */
  function Shot(su: Setup, d: Desk, r: Reading): Option<Step> {
    if !Evaluates(su, d) then None
    else
      var v := VerdictOf(su, d, r);
      if v.Fire? then Some(Intend(su.SlugOf(CurrentWindow(su, d).start), v.intent, ViewOf(su, d, r, v.intent.outcome)))
      else None
  }

  // ---- the engine's manage_sessions and its oracle callbacks

  /** What a step of the rollover means for trading: a session is opened, closed or settled. */
  function Echo(su: Setup, ss: map<string, Session>, r: Rollover.Roll, q: Rollover.Roll, step: Rollover.Step): Option<Step>
    requires su.cfg.windowLength > 0
  {
    var c := Concerned(su.Timing(), r, step);
    if c.Some? && c.value < |r.windows| && c.value < |q.windows| then
      var w, x := r.windows[c.value], q.windows[c.value];
      if Closes(w, x) then Some(CloseSession(su.SlugOf(w.start)))
      else if Settles(w, x) then Some(SettleSession(su.SlugOf(w.start), x.outcome.value))
      else None
    else if |q.windows| > |r.windows| then
      var meta := su.metaOf(q.windows[|r.windows|].start);
      if meta.slug in ss then None else Some(OpenSession(meta))
    else None
  }

  /** Steps of the venue and of time: books, prints, acknowledgements, cancels, due times. */
  predicate OutsideStep(step: Step) {
    !step.OpenSession? && !step.Intend? && !step.CloseSession? && !step.SettleSession?
  }

  /** The step of the shadow trader that an event brings about. */
  function Act(su: Setup, d: Desk, e: Event): Option<Step>
    requires su.cfg.windowLength > 0
  {
    match e
    case Rolling(step) => Echo(su, d.sys.sessions, d.roll, Rollover.Next(su.Timing(), d.roll, step), step)
    case Looking(r) => Shot(su, d, r)
    case Outside(act) => if OutsideStep(act) then Some(act) else None
  }

  ghost function Acted(cfg: Config, s: System, step: Option<Step>): System {
    if step.None? then s else Trading.Next(cfg, s, step.value)
  }

  /** One event, after whatever the last one raised has been caught. */
  ghost function After(su: Setup, d: Desk, e: Event): Desk
    requires su.cfg.windowLength > 0
  {
    Desk(Acted(su.cfg, d.sys, Act(su, d, e)),
         if e.Rolling? then Rollover.Next(su.Timing(), d.roll, e.step) else d.roll,
         if e.Looking? && Evaluates(su, d) then d.looks + [LookOf(su, d, e.reading)] else d.looks)
  }

  ghost function DeskRun(su: Setup, d: Desk, events: seq<Event>): Desk
    requires su.cfg.windowLength > 0
    decreases events
  {
    if events == [] then d else DeskRun(su, After(su, d, events[0]), events[1..])
  }

  // ---- the environment

  /** Windows of one length that divides the day; each with its own slug and tokens, and a fee rate in [0, 1]. */
  ghost predicate SetupOk(su: Setup) {
    && su.cfg.windowLength > 0 && 86400 % su.cfg.windowLength == 0
    && su.cfg.warmupSeconds >= 0.0 && su.cfg.armSeconds <= su.cfg.windowLength as real
    && su.cfg.maxStakePerWindow >= 0.0 && su.cfg.maxDailyLoss > 0.0
    && (forall ws :: MetaOk(su.cfg, ws, su.metaOf(ws)))
    && (forall a, b :: a != b ==> Apart(su.metaOf(a), su.metaOf(b)))
  }

  predicate MetaOk(cfg: Config, ws: int, m: Meta) {
    m.windowStart == ws && m.windowClose == ws + cfg.windowLength && m.upToken != m.downToken && 0 <= m.feeRateBps <= 10000
  }

  predicate Apart(m: Meta, n: Meta) {
    m.slug != n.slug && {m.upToken, m.downToken} !! {n.upToken, n.downToken}
  }

  /** Every other window of the current one's day that has traded has had a print of the window that opens at its
      close. */
  ghost predicate BoundariesCaptured(su: Setup, d: Desk)
    requires su.cfg.windowLength > 0 && Evaluates(su, d)
  {
    var meta := su.metaOf(CurrentWindow(su, d).start);
    forall slug <- d.sys.sessions ::
      slug != meta.slug && SessionDay(d.sys.sessions[slug]) == DayOf(meta.windowStart) && d.sys.sessions[slug].stake > 0.0 ==>
        d.sys.sessions[slug].meta.windowClose in Seen(d.roll.prints, su.cfg.windowLength)
  }

  /** The clock goes forward and books keep to the tick grid. */
  ghost predicate FairEvent(su: Setup, d: Desk, e: Event)
    requires su.cfg.windowLength > 0
  {
    match e
    case Rolling(step) => Rollover.Lawful(su.Timing(), d.roll, step)
    case Looking(r) => true
    case Outside(act) => Fair(d.sys, act)
  }

  ghost predicate FairDeskRun(su: Setup, d: Desk, events: seq<Event>)
    requires su.cfg.windowLength > 0
    decreases events
  {
    events != [] ==> FairEvent(su, d, events[0]) && FairDeskRun(su, After(su, d, events[0]), events[1..])
  }

  /** A fair event; and the sniper shoots only once the boundaries of the windows that have traded on its day have been
      captured. */
  ghost predicate InOrder(su: Setup, d: Desk, e: Event)
    requires su.cfg.windowLength > 0
  {
    FairEvent(su, d, e) && (e.Looking? && Shot(su, d, e.reading).Some? ==> BoundariesCaptured(su, d))
  }

  ghost predicate InOrderRun(su: Setup, d: Desk, events: seq<Event>)
    requires su.cfg.windowLength > 0
    decreases events
  {
    events != [] ==> InOrder(su, d, events[0]) && InOrderRun(su, After(su, d, events[0]), events[1..])
  }

  // ---- the invariant

  /** Some session of this window has been the current one. */
  ghost predicate Started(r: Rollover.Roll, ws: int) {
    exists id <- r.wasCurrent :: id < |r.windows| && r.windows[id].start == ws
  }

  predicate StageFits(stage: Stage, w: Sessions.Window) {
    match stage
    case Open => PartOf(w.state) == RolloverSteps.Trading
    case Settling => PartOf(w.state) == Waiting
    case Done(outcome) => w.state == Sessions.Done && w.outcome == Some(outcome)
  }

  predicate Fits(sess: Session, w: Sessions.Window) {
    StageFits(sess.stage, w) && (sess.stake > 0.0 ==> w.k.Some?)
  }

  /** Every session object has its trading session, which is where its state says; one whose window was never
      current is open and has no stake. */
  ghost predicate Linked(su: Setup, ss: map<string, Session>, r: Rollover.Roll) {
    && (forall w <- r.windows :: su.SlugOf(w.start) in ss)
    && (forall slug <- ss :: ss[slug].meta == su.metaOf(ss[slug].meta.windowStart) && ss[slug].meta.slug == slug)
    && (forall id <- r.wasCurrent :: id < |r.windows| && su.SlugOf(r.windows[id].start) in ss
                                     && Fits(ss[su.SlugOf(r.windows[id].start)], r.windows[id]))
    && (forall slug <- ss :: !Started(r, ss[slug].meta.windowStart) ==> ss[slug].stage == Open && ss[slug].stake == 0.0)
  }

  ghost predicate LooksOk(r: Rollover.Roll, looks: seq<Look>) {
    Forward(looks) && forall l <- looks :: Started(r, l.ws)
  }

  ghost function ShotSlugs(su: Setup, looks: seq<Look>): set<string> {
    set ws | ws in Watch(looks).shots :: su.SlugOf(ws)
  }

  /** What every fair run of the desk keeps. */
  ghost predicate DeskOk(su: Setup, d: Desk)
    requires su.cfg.windowLength > 0
  {
    && Bounded(su.cfg, d.sys) && Rollover.Inv(su.Timing(), d.roll) && Ordered(d.roll)
    && Linked(su, d.sys.sessions, d.roll) && LooksOk(d.roll, d.looks)
  }

  /** And what every run in order keeps besides. */
  ghost predicate DeskInv(su: Setup, d: Desk)
    requires su.cfg.windowLength > 0
  {
    DeskOk(su, d) && Budgeted(su.cfg, d.sys.sessions, d.sys.accounts, ShotSlugs(su, d.looks))
  }
}
