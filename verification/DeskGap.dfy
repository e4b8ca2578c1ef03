/** A run of the desk in which the daily budget gate is not enough: the boundary of a window that has traded is captured
    only after the sniper has shot in a later window of the same day. */
module DeskGap {
  import opened Grid
  import opened Orders
  import opened Books
  import opened Exchange
  import opened Ledger
  import opened Risk
  import KCapture
  import Sessions
  import Rollover
  import RolloverLate
  import opened GapRollover
  import opened Sniper
  import opened Trading
  import opened TradingBase
  import opened TradingSafety
  import opened WorstCase
  import opened SniperDesk
  import opened DeskBudget
  import opened TradingExamples

  const MODE: Mode := Mode(true, 0.9, 0.9, 0.05, 0.0)

  /** Five-minute windows without fees, under the small limits, and nothing prefetched. */
  ghost predicate GapSetup(su: Setup) {
    && SetupOk(su) && su.mode == MODE && su.cfg == SMALL && su.prefetch == 0.0
    && forall ws :: su.metaOf(ws) == Market5(ws, su.metaOf(ws).slug, su.metaOf(ws).upToken, su.metaOf(ws).downToken)
  }

  /** A hundred seconds into a window the model is certain of the upper outcome, and everything is fresh. */
  function Certain(ws: int): Reading {
    Reading(ws as real + 100.0, Some(1.0), false, 0, Some(0.0), Some(0.0), Some(0.0), false, 0.0)
  }

  // ---- running event by event

  ghost predicate Leads(su: Setup, d: Desk, es: seq<Event>, q: Desk)
    requires su.cfg.windowLength > 0
  {
    InOrderRun(su, d, es) && DeskRun(su, d, es) == q
  }

  lemma LeadsOne(su: Setup, d: Desk, e: Event, q: Desk)
    requires su.cfg.windowLength > 0 && InOrder(su, d, e) && After(su, d, e) == q
    ensures Leads(su, d, [e], q)
  {
    assert [e][1..] == [];
  }

  lemma {:induction false} LeadsThen(su: Setup, d: Desk, es: seq<Event>, m: Desk, fs: seq<Event>, q: Desk)
    requires su.cfg.windowLength > 0 && Leads(su, d, es, m) && Leads(su, m, fs, q)
    ensures Leads(su, d, es + fs, q)
    decreases es
  {
    if es == [] {
      assert es + fs == fs;
    } else {
      assert (es + fs)[1..] == es[1..] + fs;
      LeadsThen(su, After(su, d, es[0]), es[1..], m, fs, q);
    }
  }

  lemma LeadsTwo(su: Setup, d: Desk, m: Desk, q: Desk, a: Event, b: Event)
    requires su.cfg.windowLength > 0 && Leads(su, d, [a], m) && Leads(su, m, [b], q)
    ensures Leads(su, d, [a, b], q)
  {
    LeadsThen(su, d, [a], m, [b], q);
    assert [a] + [b] == [a, b];
  }

  lemma LeadsFour(su: Setup, d: Desk, d1: Desk, d2: Desk, d3: Desk, q: Desk, a: Event, b: Event, c: Event, e: Event)
    requires su.cfg.windowLength > 0
    requires Leads(su, d, [a], d1) && Leads(su, d1, [b], d2) && Leads(su, d2, [c], d3) && Leads(su, d3, [e], q)
    ensures Leads(su, d, [a, b, c, e], q)
  {
    LeadsTwo(su, d, d1, d2, a, b);
    LeadsTwo(su, d2, d3, q, c, e);
    LeadsThen(su, d, [a, b], d2, [c, e], q);
    assert [a, b] + [c, e] == [a, b, c, e];
  }

  /** A step of the rollover, of which trading hears act. */
  lemma Rolls(su: Setup, d: Desk, step: Rollover.Step, q: Rollover.Roll, act: Option<Step>)
    requires su.cfg.windowLength > 0 && Rollover.Lawful(su.Timing(), d.roll, step)
    requires Rollover.Next(su.Timing(), d.roll, step) == q && Echo(su, d.sys.sessions, d.roll, q, step) == act
    ensures Leads(su, d, [Rolling(step)], Desk(Acted(su.cfg, d.sys, act), q, d.looks))
  {
    LeadsOne(su, d, Rolling(step), Desk(Acted(su.cfg, d.sys, act), q, d.looks));
  }

  lemma Comes(su: Setup, d: Desk, act: Step, t: System)
    requires su.cfg.windowLength > 0 && OutsideStep(act) && Fair(d.sys, act) && Next(su.cfg, d.sys, act) == t
    ensures Leads(su, d, [Outside(act)], Desk(t, d.roll, d.looks))
  {
    LeadsOne(su, d, Outside(act), Desk(t, d.roll, d.looks));
  }

  // ---- the trading system's part

  /** Both books of the window show the offer. */
  function Quoted(s: System, meta: Meta): System {
    Mirrored(Mirrored(s, meta.upToken, OFFER), meta.downToken, OFFER)
  }

  predicate Tradeable(s: System, meta: Meta) {
    Untraded(s, meta) && s.market.BookOf(meta.downToken) == Some(OFFER)
  }

  function QuoteEvents(meta: Meta): seq<Event> {
    [Outside(BookEvent(meta.upToken, OFFER)), Outside(BookEvent(meta.downToken, OFFER))]
  }

  lemma OfferOnTicks()
    ensures BookOnTicks(OFFER)
  {
    OfferOnGrid();
  }

  lemma Quotes(su: Setup, d: Desk, meta: Meta)
    requires su.cfg.windowLength > 0 && !d.sys.core.fault && Indexed(d.sys.core)
    requires meta.upToken in d.sys.market.books && meta.downToken in d.sys.market.books
    ensures Leads(su, d, QuoteEvents(meta), Desk(Quoted(d.sys, meta), d.roll, d.looks))
  {
    var s1 := Mirrored(d.sys, meta.upToken, OFFER);
    OfferOnTicks();
    Comes(su, d, BookEvent(meta.upToken, OFFER), s1);
    Comes(su, Desk(s1, d.roll, d.looks), BookEvent(meta.downToken, OFFER), Quoted(d.sys, meta));
    LeadsTwo(su, d, Desk(s1, d.roll, d.looks), Desk(Quoted(d.sys, meta), d.roll, d.looks),
             Outside(BookEvent(meta.upToken, OFFER)), Outside(BookEvent(meta.downToken, OFFER)));
  }

  // ---- a shot

  lemma OfferTop()
    ensures TopOf(OFFER) == Top(Some(0.8), 5.0)
  {
    var lv := Level("0.8", 0.8, 5.0);
    assert OFFER.asks == [lv] && [lv][1..] == [];
    assert Best(Sell, []) == None;
  }

  lemma ShotSize()
    ensures SizeFor(SMALL, 0.8, 5.0) == 5.0
  {
    assert RoundHalfEven(500.0) == 500;
  }

  /** What the sniper decides on the offer. */
  lemma DecidesToBuy(s: Sight)
    requires s.meta == Market5(s.meta.windowStart, s.meta.slug, s.meta.upToken, s.meta.downToken)
    requires s.phase == PhaseAt(SMALL, s.meta, s.meta.windowStart as real + 100.0) && s.pUp == Some(1.0)
    requires s.feeRate == Some(0.0) && s.hasK && s.up == Top(Some(0.8), 5.0)
    ensures Decide(MODE, SMALL, s) == Fire(BUY)
  {
    ShotSize();
    assert s.phase == Armed;
    assert FeePerShare(0.0, 0.8) == 0.0;
    assert Edge(MODE, 1.0, Up, 0.8, 0.0) == 0.2;
  }

  /** The desk's current window is ws, with a Price to Beat, and its market can be bought. */
  ghost predicate Ready(su: Setup, d: Desk, ws: int) {
    && GapSetup(su) && d.roll.current.Some? && d.roll.current.value < |d.roll.windows|
    && var w := d.roll.windows[d.roll.current.value];
       && w.start == ws && w.state == Sessions.Active && w.k.Some? && Tradeable(d.sys, su.metaOf(ws))
  }

  lemma SeesOffer(su: Setup, d: Desk, ws: int)
    requires Ready(su, d, ws)
    ensures Evaluates(su, d)
    ensures var s := SightOf(su, d, Certain(ws));
            && s.meta == su.metaOf(ws) && s.phase == PhaseAt(SMALL, s.meta, ws as real + 100.0) && s.pUp == Some(1.0)
            && s.feeRate == Some(0.0) && s.hasK && s.up == Top(Some(0.8), 5.0)
    ensures ViewOf(su, d, Certain(ws), Up) == Calm(su.metaOf(ws))
  {
    OfferTop();
    assert su.metaOf(ws).windowStart == ws;
  }

  lemma Shoots(su: Setup, d: Desk, ws: int)
    requires Ready(su, d, ws) && ws !in Watch(d.looks).fired
    ensures var meta := su.metaOf(ws);
            && Shot(su, d, Certain(ws)) == Some(Intend(meta.slug, BUY, Calm(meta)))
            && After(su, d, Looking(Certain(ws))) == Desk(DraftedFor(d.sys, meta), d.roll, d.looks + [Look(ws, true)])
  {
    var meta, s := su.metaOf(ws), SightOf(su, d, Certain(ws));
    SeesOffer(su, d, ws);
    DecidesToBuy(s);
    Drafts(d.sys, meta);
  }

  function FillEvents(n: nat): seq<Event> {
    [Outside(SubmitOrder(n, 0)), Outside(ElapseTo(0))]
  }

  /** The system after a buy in the window. */
  ghost function Filled(s: System, meta: Meta): System {
    Next(SMALL, SubmittedFor(s, meta), ElapseTo(0))
  }

  /** The shot is submitted, and filled. */
  lemma GetsFilled(su: Setup, s: System, meta: Meta, r: Rollover.Roll, looks: seq<Look>)
    requires su.cfg == SMALL && Untraded(s, meta)
    ensures Trades(s, Filled(s, meta), meta)
    ensures Leads(su, Desk(DraftedFor(s, meta), r, looks), FillEvents(|s.core.orders|), Desk(Filled(s, meta), r, looks))
  {
    var n := |s.core.orders|;
    var d, m, q := Desk(DraftedFor(s, meta), r, looks), Desk(SubmittedFor(s, meta), r, looks), Desk(Filled(s, meta), r, looks);
    Submits(s, meta);
    Fills(s, meta);
    Comes(su, d, SubmitOrder(n, 0), m.sys);
    Comes(su, m, ElapseTo(0), q.sys);
    LeadsTwo(su, d, m, q, Outside(SubmitOrder(n, 0)), Outside(ElapseTo(0)));
  }

  // ---- what trading hears of the rollover

  lemma EchoClosing(su: Setup, ss: map<string, Session>, r: Rollover.Roll, q: Rollover.Roll, now: real, id: nat)
    requires su.cfg.windowLength > 0 && r.at == Rollover.Idle && r.current == Some(id) && id < |r.windows| == |q.windows|
    requires r.windows[id].state == Sessions.Active && q.windows[id].state == Sessions.Closing
    ensures Echo(su, ss, r, q, Rollover.Manage(now)) == Some(CloseSession(su.SlugOf(r.windows[id].start)))
  {
  }

  lemma EchoWaiting(su: Setup, ss: map<string, Session>, r: Rollover.Roll, q: Rollover.Roll)
    requires su.cfg.windowLength > 0 && |r.windows| == |q.windows| && r.at in {Rollover.InTeardown, Rollover.InSnapshot}
    requires r.at == Rollover.InSnapshot ==> q.windows == r.windows
    ensures Echo(su, ss, r, q, Rollover.Resume(true)) == None
  {
  }

  lemma EchoOpening(su: Setup, ss: map<string, Session>, r: Rollover.Roll, q: Rollover.Roll)
    requires su.cfg.windowLength > 0 && |q.windows| == |r.windows| + 1 && r.at == Rollover.InCreation
    requires su.metaOf(q.windows[|r.windows|].start).slug !in ss
    ensures Echo(su, ss, r, q, Rollover.Resume(true)) == Some(OpenSession(su.metaOf(q.windows[|r.windows|].start)))
  {
  }

  /** A print that settles nothing. */
  lemma EchoPrint(su: Setup, ss: map<string, Session>, r: Rollover.Roll, q: Rollover.Roll, p: KCapture.OraclePrint)
    requires su.cfg.windowLength > 0 && |q.windows| == |r.windows|
    requires var ws := KCapture.WindowOf(p, su.cfg.windowLength);
             ws in r.settling && r.settling[ws] < |r.windows| ==> q.windows[r.settling[ws]] == r.windows[r.settling[ws]]
    ensures Echo(su, ss, r, q, Rollover.Oracle(p)) == None
  {
  }

  lemma EchoSettling(su: Setup, ss: map<string, Session>, r: Rollover.Roll, q: Rollover.Roll, p: KCapture.OraclePrint, id: nat)
    requires su.cfg.windowLength > 0 && id < |r.windows| == |q.windows|
    requires KCapture.WindowOf(p, su.cfg.windowLength) in r.settling && r.settling[KCapture.WindowOf(p, su.cfg.windowLength)] == id
    requires r.windows[id].state == Sessions.Settling && q.windows[id].state == Sessions.Done && q.windows[id].outcome == Some(Down)
    ensures Echo(su, ss, r, q, Rollover.Oracle(p)) == Some(SettleSession(su.SlugOf(r.windows[id].start), Down))
  {
  }

  // ---- phases of the run

  function OpenEvents(g: Gap): seq<Event> {
    [Rolling(Rollover.Manage(0.0)), Rolling(Rollover.Resume(true))] + [Rolling(Rollover.Oracle(g.a))]
  }

  /** The first manage_sessions call finds nothing current, and is the first to create a session. */
  lemma StartsUp(su: Setup, r1: Rollover.Roll)
    requires GapSetup(su) && r1 == Rollover.START.(at := Rollover.InCreation)
    ensures Leads(su, OPENING, [Rolling(Rollover.Manage(0.0))], Desk(START, r1, []))
  {
    RolloverLate.FirstStarts(su.Timing());
    Rolls(su, OPENING, Rollover.Manage(0.0), r1, None);
  }

  lemma FirstAppears(su: Setup, r1: Rollover.Roll, r2: Rollover.Roll)
    requires GapSetup(su) && r1 == Rollover.START.(at := Rollover.InCreation) && r2 == RolloverLate.Opened()
    ensures Leads(su, Desk(START, r1, []), [Rolling(Rollover.Resume(true))], Desk(Opened(START, su.metaOf(0)), r2, []))
  {
    FirstCreated(su, r1, r2);
    TurnOpens(su, START, [], su.metaOf(0), r1, r2);
  }

  lemma FirstCreated(su: Setup, r1: Rollover.Roll, r2: Rollover.Roll)
    requires GapSetup(su) && r1 == Rollover.START.(at := Rollover.InCreation) && r2 == RolloverLate.Opened()
    ensures Rollover.Next(su.Timing(), r1, Rollover.Resume(true)) == r2
    ensures r1.windows == [] && |r2.windows| == 1 && r2.windows[0].start == 0
  {
    RolloverLate.FirstOpens(su.Timing(), r1);
  }

  lemma FirstGetsK(su: Setup, s: System, g: Gap)
    requires GapSetup(su) && GapOk(g)
    ensures Leads(su, Desk(s, RolloverLate.Opened(), []), [Rolling(Rollover.Oracle(g.a))], Desk(s, FirstTrades(g), []))
  {
    RolloverLate.FirstTrades(su.Timing(), g.a);
    EchoPrint(su, s.sessions, RolloverLate.Opened(), FirstTrades(g), g.a);
    Rolls(su, Desk(s, RolloverLate.Opened(), []), Rollover.Oracle(g.a), FirstTrades(g), None);
  }

  /** The first window opens and gets its Price to Beat. */
  lemma Opens(su: Setup, g: Gap)
    requires GapSetup(su) && GapOk(g)
    ensures Leads(su, OPENING, OpenEvents(g), Desk(Opened(START, su.metaOf(0)), FirstTrades(g), []))
  {
    var r1, s := Rollover.START.(at := Rollover.InCreation), Opened(START, su.metaOf(0));
    StartsUp(su, r1);
    FirstAppears(su, r1, RolloverLate.Opened());
    FirstGetsK(su, s, g);
    OpensInAll(su, OPENING, Desk(START, r1, []), Desk(s, RolloverLate.Opened(), []), Desk(s, FirstTrades(g), []), g);
  }

  lemma OpensInAll(su: Setup, d: Desk, d1: Desk, d2: Desk, q: Desk, g: Gap)
    requires su.cfg.windowLength > 0
    requires Leads(su, d, [Rolling(Rollover.Manage(0.0))], d1) && Leads(su, d1, [Rolling(Rollover.Resume(true))], d2)
    requires Leads(su, d2, [Rolling(Rollover.Oracle(g.a))], q)
    ensures Leads(su, d, OpenEvents(g), q)
  {
    LeadsTwo(su, d, d1, d2, Rolling(Rollover.Manage(0.0)), Rolling(Rollover.Resume(true)));
    LeadsThen(su, d, [Rolling(Rollover.Manage(0.0)), Rolling(Rollover.Resume(true))], d2, [Rolling(Rollover.Oracle(g.a))], q);
  }

  /** A window is over and the next one opens; nothing settles. */
  function NextEvents(now: real): seq<Event> {
    [Rolling(Rollover.Manage(now)), Rolling(Rollover.Resume(true)), Rolling(Rollover.Resume(true)), Rolling(Rollover.Resume(true))]
  }

  /** One window after another in the trading system: the one closes, the other opens. */
  function TurnedOver(s: System, slug: string, meta: Meta): System
    requires slug in s.sessions
  {
    Opened(AwaitingClose(s, slug), meta)
  }

  /** The four steps of such a turn, and the states between them. */
  ghost predicate Turn(su: Setup, now: real, r: Rollover.Roll, r1: Rollover.Roll, r2: Rollover.Roll, r3: Rollover.Roll, q: Rollover.Roll)
    requires su.cfg.windowLength > 0
  {
    var t, go := su.Timing(), Rollover.Resume(true);
    && Rollover.Lawful(t, r, Rollover.Manage(now)) && Rollover.Next(t, r, Rollover.Manage(now)) == r1
    && Rollover.Lawful(t, r1, go) && Rollover.Next(t, r1, go) == r2
    && Rollover.Lawful(t, r2, go) && Rollover.Next(t, r2, go) == r3
    && Rollover.Lawful(t, r3, go) && Rollover.Next(t, r3, go) == q
    && r.at == Rollover.Idle && r1.at == Rollover.InTeardown && r2.at == Rollover.InSnapshot && r3.at == Rollover.InCreation
    && |r.windows| == |r1.windows| == |r2.windows| && r3.windows == r2.windows && |q.windows| == |r.windows| + 1
    && r.current.Some? && r.current.value < |r.windows|
    && r.windows[r.current.value].state == Sessions.Active && r1.windows[r.current.value].state == Sessions.Closing
  }

  lemma TurnCloses(su: Setup, s: System, looks: seq<Look>, now: real, slug: string, r: Rollover.Roll, r1: Rollover.Roll)
    requires su.cfg.windowLength > 0 && Indexed(s.core) && !s.core.fault
    requires Rollover.Lawful(su.Timing(), r, Rollover.Manage(now)) && Rollover.Next(su.Timing(), r, Rollover.Manage(now)) == r1
    requires r.at == Rollover.Idle && r.current.Some? && r.current.value < |r.windows| == |r1.windows|
    requires r.windows[r.current.value].state == Sessions.Active && r1.windows[r.current.value].state == Sessions.Closing
    requires slug == su.SlugOf(r.windows[r.current.value].start) && slug in s.sessions && s.sessions[slug].stage == Open
    ensures Leads(su, Desk(s, r, looks), [Rolling(Rollover.Manage(now))], Desk(AwaitingClose(s, slug), r1, looks))
  {
    EchoClosing(su, s.sessions, r, r1, now, r.current.value);
    Rolls(su, Desk(s, r, looks), Rollover.Manage(now), r1, Some(CloseSession(slug)));
  }

  lemma TurnWaits(su: Setup, s: System, looks: seq<Look>, r: Rollover.Roll, q: Rollover.Roll)
    requires su.cfg.windowLength > 0 && Rollover.Lawful(su.Timing(), r, Rollover.Resume(true))
    requires Rollover.Next(su.Timing(), r, Rollover.Resume(true)) == q && |r.windows| == |q.windows|
    requires r.at in {Rollover.InTeardown, Rollover.InSnapshot} && (r.at == Rollover.InSnapshot ==> q.windows == r.windows)
    ensures Leads(su, Desk(s, r, looks), [Rolling(Rollover.Resume(true))], Desk(s, q, looks))
  {
    EchoWaiting(su, s.sessions, r, q);
    Rolls(su, Desk(s, r, looks), Rollover.Resume(true), q, None);
  }

  lemma TurnOpens(su: Setup, s: System, looks: seq<Look>, meta: Meta, r: Rollover.Roll, q: Rollover.Roll)
    requires su.cfg.windowLength > 0 && Indexed(s.core) && !s.core.fault && Rollover.Lawful(su.Timing(), r, Rollover.Resume(true))
    requires Rollover.Next(su.Timing(), r, Rollover.Resume(true)) == q && |q.windows| == |r.windows| + 1
    requires r.at == Rollover.InCreation && meta == su.metaOf(q.windows[|r.windows|].start) && meta.slug !in s.sessions
    ensures Leads(su, Desk(s, r, looks), [Rolling(Rollover.Resume(true))], Desk(Opened(s, meta), q, looks))
  {
    EchoOpening(su, s.sessions, r, q);
    Rolls(su, Desk(s, r, looks), Rollover.Resume(true), q, Some(OpenSession(meta)));
  }

  lemma Turns(su: Setup, s: System, looks: seq<Look>, now: real, slug: string, meta: Meta,
              r: Rollover.Roll, r1: Rollover.Roll, r2: Rollover.Roll, r3: Rollover.Roll, q: Rollover.Roll)
    requires su.cfg.windowLength > 0 && Turn(su, now, r, r1, r2, r3, q) && Indexed(s.core) && !s.core.fault
    requires slug == su.SlugOf(r.windows[r.current.value].start) && slug in s.sessions && s.sessions[slug].stage == Open
    requires meta == su.metaOf(q.windows[|r.windows|].start) && meta.slug !in s.sessions
    ensures Leads(su, Desk(s, r, looks), NextEvents(now), Desk(TurnedOver(s, slug, meta), q, looks))
  {
    var u := AwaitingClose(s, slug);
    TurnCloses(su, s, looks, now, slug, r, r1);
    TurnWaits(su, u, looks, r1, r2);
    TurnWaits(su, u, looks, r2, r3);
    TurnOpens(su, u, looks, meta, r3, q);
    var go := Rolling(Rollover.Resume(true));
    LeadsFour(su, Desk(s, r, looks), Desk(u, r1, looks), Desk(u, r2, looks), Desk(u, r3, looks),
              Desk(TurnedOver(s, slug, meta), q, looks), Rolling(Rollover.Manage(now)), go, go, go);
  }

  lemma FirstTurn(su: Setup, g: Gap)
    requires GapSetup(su) && GapOk(g)
    ensures Turn(su, 300.0, FirstTrades(g), FirstTearing(g), FirstClosed(g), FirstWaits(g), SecondOpen(g))
  {
    SnapshotIsRecent(su.Timing(), g);
    FirstSteps(su.Timing(), g);
    FirstPasses(su.Timing(), g);
    SecondOpens(su.Timing(), g);
  }

  lemma SecondTurn(su: Setup, g: Gap)
    requires GapSetup(su) && GapOk(g)
    ensures Turn(su, 600.0, SecondOpen(g), SecondTearing(g), SecondClosed(g), SecondWaits(g), ThirdOpen(g))
  {
    SnapshotIsRecent(su.Timing(), g);
    SecondSteps(su.Timing(), g);
    ThirdOpens(su.Timing(), g);
  }

  // ---- the run as a whole

  /** Up to the second shot: the first window is opened, shot in and left waiting; the second passes; the third opens. */
  function Before(su: Setup, g: Gap): seq<Event> {
    (OpenEvents(g) + QuoteEvents(su.metaOf(0))) + (([Looking(Certain(0))] + FillEvents(0)) + PassEvents(su, g))
  }

  function PassEvents(su: Setup, g: Gap): seq<Event> {
    (NextEvents(300.0) + NextEvents(600.0)) + ([Rolling(Rollover.Oracle(g.c))] + QuoteEvents(su.metaOf(600)))
  }

  /** From the second shot on: it is filled, the late print settles the first window, and the third settles too. */
  function Afterwards(g: Gap): seq<Event> {
    FillEvents(1) + SettleEvents(g)
  }

  const ONE: seq<Look> := [Look(0, true)]

  ghost predicate AtFirst(su: Setup, s: System) {
    && Tradeable(s, su.metaOf(0)) && s.core == EMPTY && s.settled == [] && s.accounts == START.accounts
    && s.sessions == map[su.SlugOf(0) := Session(su.metaOf(0), 0.0, Open)]
  }

  /** One order, filled, for the first window. */
  ghost predicate OneBought(su: Setup, s: System) {
    && Idle(s.core) && |s.core.orders| == 1 && s.core.tradeSeq == 1 && s.core.journal == [Bought(su.metaOf(0), 0, 1)]
    && s.settled == [] && s.accounts.daily == map[]
  }

  ghost predicate AfterFirst(su: Setup, s: System) {
    OneBought(su, s) && s.sessions == map[su.SlugOf(0) := Session(su.metaOf(0), 4.0, Open)]
  }

  ghost predicate AtSecond(su: Setup, s: System) {
    && OneBought(su, s) && Tradeable(s, su.metaOf(600))
    && s.sessions == map[su.SlugOf(0) := Session(su.metaOf(0), 4.0, Settling),
                         su.SlugOf(300) := Session(su.metaOf(300), 0.0, Settling),
                         su.SlugOf(600) := Session(su.metaOf(600), 0.0, Open)]
  }

  lemma AllApart(su: Setup)
    requires GapSetup(su)
    ensures Apart(su.metaOf(0), su.metaOf(300)) && Apart(su.metaOf(0), su.metaOf(600)) && Apart(su.metaOf(300), su.metaOf(600))
    ensures forall ws :: su.metaOf(ws).upToken != su.metaOf(ws).downToken && su.metaOf(ws).slug == su.SlugOf(ws)
  {
    forall ws ensures su.metaOf(ws).upToken != su.metaOf(ws).downToken { assert MetaOk(su.cfg, ws, su.metaOf(ws)); }
  }

  lemma QuotedFirst(su: Setup, s: System)
    requires GapSetup(su) && s == Quoted(Opened(START, su.metaOf(0)), su.metaOf(0))
    ensures AtFirst(su, s)
  {
    AllApart(su);
  }

  lemma ComesToFirst(su: Setup, g: Gap) returns (s: System)
    requires GapSetup(su) && GapOk(g)
    ensures AtFirst(su, s)
    ensures Leads(su, OPENING, OpenEvents(g) + QuoteEvents(su.metaOf(0)), Desk(s, FirstTrades(g), []))
  {
    var o := Opened(START, su.metaOf(0));
    s := Quoted(o, su.metaOf(0));
    QuotedFirst(su, s);
    Opens(su, g);
    Quotes(su, Desk(o, FirstTrades(g), []), su.metaOf(0));
    LeadsThen(su, OPENING, OpenEvents(g), Desk(o, FirstTrades(g), []), QuoteEvents(su.metaOf(0)), Desk(s, FirstTrades(g), []));
  }

  lemma FirstLook(su: Setup, s: System, g: Gap)
    requires GapSetup(su) && AtFirst(su, s)
    ensures Leads(su, Desk(s, FirstTrades(g), []), [Looking(Certain(0))], Desk(DraftedFor(s, su.metaOf(0)), FirstTrades(g), ONE))
  {
    var d := Desk(s, FirstTrades(g), []);
    Shoots(su, d, 0);
    assert BoundariesCaptured(su, d);
    LeadsOne(su, d, Looking(Certain(0)), Desk(DraftedFor(s, su.metaOf(0)), FirstTrades(g), ONE));
  }

  lemma FirstFilled(su: Setup, s: System, t: System)
    requires AtFirst(su, s) && Trades(s, t, su.metaOf(0)) && su.metaOf(0).slug == su.SlugOf(0)
    ensures AfterFirst(su, t)
  {
  }

  lemma FirstShot(su: Setup, g: Gap, s: System) returns (t: System)
    requires GapSetup(su) && AtFirst(su, s)
    ensures AfterFirst(su, t)
    ensures Leads(su, Desk(s, FirstTrades(g), []), [Looking(Certain(0))] + FillEvents(0), Desk(t, FirstTrades(g), ONE))
  {
    var m := su.metaOf(0);
    t := Filled(s, m);
    FirstLook(su, s, g);
    GetsFilled(su, s, m, FirstTrades(g), ONE);
    FirstFilled(su, s, t);
    LeadsThen(su, Desk(s, FirstTrades(g), []), [Looking(Certain(0))], Desk(DraftedFor(s, m), FirstTrades(g), ONE),
              FillEvents(0), Desk(t, FirstTrades(g), ONE));
  }

  // ---- between the shots

  ghost predicate AtGap(su: Setup, s: System) {
    && OneBought(su, s)
    && s.sessions == map[su.SlugOf(0) := Session(su.metaOf(0), 4.0, Settling), su.SlugOf(300) := Session(su.metaOf(300), 0.0, Open)]
  }

  lemma GapSystem(su: Setup, s: System)
    requires GapSetup(su) && AfterFirst(su, s)
    ensures AtGap(su, TurnedOver(s, su.SlugOf(0), su.metaOf(300)))
  {
    AllApart(su);
  }

  lemma SecondSystem(su: Setup, s: System, t: System)
    requires GapSetup(su) && AtGap(su, s) && t == Quoted(TurnedOver(s, su.SlugOf(300), su.metaOf(600)), su.metaOf(600))
    ensures AtSecond(su, t)
  {
    AllApart(su);
  }

  lemma FirstTurnsOver(su: Setup, g: Gap, s: System)
    requires GapSetup(su) && GapOk(g) && Indexed(s.core) && !s.core.fault
    requires su.SlugOf(0) in s.sessions && s.sessions[su.SlugOf(0)].stage == Open && su.SlugOf(300) !in s.sessions
    ensures Leads(su, Desk(s, FirstTrades(g), ONE), NextEvents(300.0),
                  Desk(TurnedOver(s, su.SlugOf(0), su.metaOf(300)), SecondOpen(g), ONE))
  {
    FirstTurn(su, g);
    Turns(su, s, ONE, 300.0, su.SlugOf(0), su.metaOf(300),
          FirstTrades(g), FirstTearing(g), FirstClosed(g), FirstWaits(g), SecondOpen(g));
  }

  lemma SecondTurnsOver(su: Setup, g: Gap, s: System)
    requires GapSetup(su) && GapOk(g) && Indexed(s.core) && !s.core.fault
    requires su.SlugOf(300) in s.sessions && s.sessions[su.SlugOf(300)].stage == Open && su.SlugOf(600) !in s.sessions
    ensures Leads(su, Desk(s, SecondOpen(g), ONE), NextEvents(600.0),
                  Desk(TurnedOver(s, su.SlugOf(300), su.metaOf(600)), ThirdOpen(g), ONE))
  {
    SecondTurn(su, g);
    Turns(su, s, ONE, 600.0, su.SlugOf(300), su.metaOf(600),
          SecondOpen(g), SecondTearing(g), SecondClosed(g), SecondWaits(g), ThirdOpen(g));
  }

  lemma PassesFirst(su: Setup, g: Gap, s: System) returns (t: System)
    requires GapSetup(su) && GapOk(g) && AfterFirst(su, s)
    ensures AtGap(su, t) && Leads(su, Desk(s, FirstTrades(g), ONE), NextEvents(300.0), Desk(t, SecondOpen(g), ONE))
  {
    t := TurnedOver(s, su.SlugOf(0), su.metaOf(300));
    AllApart(su);
    GapSystem(su, s);
    FirstTurnsOver(su, g, s);
  }

  lemma PassesSecond(su: Setup, g: Gap, s: System) returns (t: System)
    requires GapSetup(su) && GapOk(g) && AtGap(su, s)
    ensures t == TurnedOver(s, su.SlugOf(300), su.metaOf(600))
    ensures Leads(su, Desk(s, SecondOpen(g), ONE), NextEvents(600.0), Desk(t, ThirdOpen(g), ONE))
  {
    t := TurnedOver(s, su.SlugOf(300), su.metaOf(600));
    AllApart(su);
    SecondTurnsOver(su, g, s);
  }

  lemma ThirdHasK(su: Setup, g: Gap, s: System)
    requires GapSetup(su) && GapOk(g)
    ensures Leads(su, Desk(s, ThirdOpen(g), ONE), [Rolling(Rollover.Oracle(g.c))], Desk(s, ThirdTrades(g), ONE))
  {
    ThirdGetsK(su.Timing(), g);
    EchoPrint(su, s.sessions, ThirdOpen(g), ThirdTrades(g), g.c);
    Rolls(su, Desk(s, ThirdOpen(g), ONE), Rollover.Oracle(g.c), ThirdTrades(g), None);
  }

  lemma Tracks(su: Setup, s: System, t: System)
    requires GapSetup(su) && AtGap(su, s) && t == TurnedOver(s, su.SlugOf(300), su.metaOf(600))
    ensures !t.core.fault && Indexed(t.core)
    ensures su.metaOf(600).upToken in t.market.books && su.metaOf(600).downToken in t.market.books
  {
  }

  lemma ThirdIsQuoted(su: Setup, g: Gap, s: System, u: System) returns (t: System)
    requires GapSetup(su) && GapOk(g) && AtGap(su, s) && u == TurnedOver(s, su.SlugOf(300), su.metaOf(600))
    ensures AtSecond(su, t)
    ensures Leads(su, Desk(u, ThirdOpen(g), ONE), [Rolling(Rollover.Oracle(g.c))] + QuoteEvents(su.metaOf(600)), Desk(t, ThirdTrades(g), ONE))
  {
    t := Quoted(u, su.metaOf(600));
    SecondSystem(su, s, t);
    ThirdHasK(su, g, u);
    Tracks(su, s, u);
    Quotes(su, Desk(u, ThirdTrades(g), ONE), su.metaOf(600));
    LeadsThen(su, Desk(u, ThirdOpen(g), ONE), [Rolling(Rollover.Oracle(g.c))], Desk(u, ThirdTrades(g), ONE),
              QuoteEvents(su.metaOf(600)), Desk(t, ThirdTrades(g), ONE));
  }

  lemma Passes(su: Setup, g: Gap, s: System) returns (t: System)
    requires GapSetup(su) && GapOk(g) && AfterFirst(su, s)
    ensures AtSecond(su, t) && Leads(su, Desk(s, FirstTrades(g), ONE), PassEvents(su, g), Desk(t, ThirdTrades(g), ONE))
  {
    var v := PassesFirst(su, g, s);
    var u := PassesSecond(su, g, v);
    t := ThirdIsQuoted(su, g, v, u);
    LeadsThen(su, Desk(s, FirstTrades(g), ONE), NextEvents(300.0), Desk(v, SecondOpen(g), ONE), NextEvents(600.0), Desk(u, ThirdOpen(g), ONE));
    LeadsThen(su, Desk(s, FirstTrades(g), ONE), NextEvents(300.0) + NextEvents(600.0), Desk(u, ThirdOpen(g), ONE),
              [Rolling(Rollover.Oracle(g.c))] + QuoteEvents(su.metaOf(600)), Desk(t, ThirdTrades(g), ONE));
  }

  lemma ComesToSecond(su: Setup, g: Gap) returns (s: System)
    requires GapSetup(su) && GapOk(g)
    ensures AtSecond(su, s) && Leads(su, OPENING, Before(su, g), Desk(s, ThirdTrades(g), ONE))
  {
    var u := ComesToFirst(su, g);
    var v := FirstShot(su, g, u);
    s := Passes(su, g, v);
    var d, e := Desk(u, FirstTrades(g), []), Desk(v, FirstTrades(g), ONE);
    LeadsThen(su, d, [Looking(Certain(0))] + FillEvents(0), e, PassEvents(su, g), Desk(s, ThirdTrades(g), ONE));
    LeadsThen(su, OPENING, OpenEvents(g) + QuoteEvents(su.metaOf(0)), d,
              ([Looking(Certain(0))] + FillEvents(0)) + PassEvents(su, g), Desk(s, ThirdTrades(g), ONE));
  }

  // ---- the second shot

  lemma BoundaryMissed(g: Gap)
    requires GapOk(g)
    ensures 300 !in KCapture.Seen([g.a, g.c], 300)
  {
    assert [g.a][..0] == [] && [g.a, g.c][..1] == [g.a];
    assert KCapture.Seen([], 300) == {} && KCapture.Seen([g.a], 300) == {0};
  }

  /** The gates let the second shot through, although the first window's boundary has not been captured. */
  lemma SecondLook(su: Setup, g: Gap, s: System)
    requires GapSetup(su) && GapOk(g) && AtSecond(su, s)
    ensures var d, m := Desk(s, ThirdTrades(g), ONE), su.metaOf(600);
            && Shot(su, d, Certain(600)).Some? && Evaluates(su, d) && !BoundariesCaptured(su, d)
            && After(su, d, Looking(Certain(600))) == Desk(DraftedFor(s, m), ThirdTrades(g), ONE + [Look(600, true)])
  {
    var d := Desk(s, ThirdTrades(g), ONE);
    RememberedOne();
    Shoots(su, d, 600);
    AllApart(su);
    BoundaryMissed(g);
    assert s.sessions[su.SlugOf(0)] == Session(su.metaOf(0), 4.0, Settling);
  }

  lemma RememberedOne()
    ensures Watch(ONE).fired == {0}
  {
    assert ONE[..0] == [];
    assert Watch([]).fired == {};
    assert |{0}| == 1;
  }

  // ---- what follows it

  ghost predicate BothBought(su: Setup, s: System) {
    && Idle(s.core) && s.core.journal == [Bought(su.metaOf(0), 0, 1), Bought(su.metaOf(600), 1, 2)] && s.settled == []
    && s.sessions == map[su.SlugOf(0) := Session(su.metaOf(0), 4.0, Settling),
                         su.SlugOf(300) := Session(su.metaOf(300), 0.0, Settling),
                         su.SlugOf(600) := Session(su.metaOf(600), 4.0, Open)]
  }

  const TWO: seq<Look> := ONE + [Look(600, true)]

  lemma SecondBought(su: Setup, s: System, t: System)
    requires GapSetup(su) && AtSecond(su, s) && Trades(s, t, su.metaOf(600))
    ensures BothBought(su, t)
  {
    AllApart(su);
    assert [Bought(su.metaOf(0), 0, 1)] + [Bought(su.metaOf(600), 1, 2)] == [Bought(su.metaOf(0), 0, 1), Bought(su.metaOf(600), 1, 2)];
  }

  lemma SecondShot(su: Setup, g: Gap, s: System) returns (t: System)
    requires GapSetup(su) && AtSecond(su, s)
    ensures BothBought(su, t)
    ensures Leads(su, Desk(DraftedFor(s, su.metaOf(600)), ThirdTrades(g), TWO), FillEvents(1), Desk(t, ThirdTrades(g), TWO))
  {
    t := Filled(s, su.metaOf(600));
    GetsFilled(su, s, su.metaOf(600), ThirdTrades(g), TWO);
    SecondBought(su, s, t);
  }

  /** A session that waits is settled down by a print. */
  lemma PrintLoses(su: Setup, s: System, r: Rollover.Roll, q: Rollover.Roll, p: KCapture.OraclePrint, id: nat, slug: string)
    requires su.cfg.windowLength > 0 && Indexed(s.core) && !s.core.fault && id < |r.windows| == |q.windows|
    requires Rollover.Next(su.Timing(), r, Rollover.Oracle(p)) == q
    requires KCapture.WindowOf(p, su.cfg.windowLength) in r.settling && r.settling[KCapture.WindowOf(p, su.cfg.windowLength)] == id
    requires r.windows[id].state == Sessions.Settling && q.windows[id].state == Sessions.Done && q.windows[id].outcome == Some(Down)
    requires slug == su.SlugOf(r.windows[id].start) && slug in s.sessions && s.sessions[slug].stage == Settling
    ensures Leads(su, Desk(s, r, TWO), [Rolling(Rollover.Oracle(p))], Desk(Settle(s, slug, Down), q, TWO))
  {
    EchoSettling(su, s.sessions, r, q, p, id);
    Rolls(su, Desk(s, r, TWO), Rollover.Oracle(p), q, Some(SettleSession(slug, Down)));
  }

  lemma LatePrint(su: Setup, g: Gap, s: System)
    requires GapSetup(su) && GapOk(g) && Indexed(s.core) && !s.core.fault
    requires su.SlugOf(0) in s.sessions && s.sessions[su.SlugOf(0)].stage == Settling
    ensures Leads(su, Desk(s, ThirdTrades(g), TWO), [Rolling(Rollover.Oracle(g.b))], Desk(Settle(s, su.SlugOf(0), Down), FirstLost(g), TWO))
  {
    LatePrintSettles(su.Timing(), g);
    PrintLoses(su, s, ThirdTrades(g), FirstLost(g), g.b, 0, su.SlugOf(0));
  }

  lemma LastPrint(su: Setup, g: Gap, s: System)
    requires GapSetup(su) && GapOk(g) && Indexed(s.core) && !s.core.fault
    requires su.SlugOf(600) in s.sessions && s.sessions[su.SlugOf(600)].stage == Settling
    ensures Leads(su, Desk(s, ThirdClosed(g), TWO), [Rolling(Rollover.Oracle(g.e))], Desk(Settle(s, su.SlugOf(600), Down), ThirdLost(g), TWO))
  {
    ThirdSettles(su.Timing(), g);
    PrintLoses(su, s, ThirdClosed(g), ThirdLost(g), g.e, 2, su.SlugOf(600));
  }

  lemma ThirdCloses(su: Setup, g: Gap, s: System)
    requires GapSetup(su) && GapOk(g) && Indexed(s.core) && !s.core.fault
    requires su.SlugOf(600) in s.sessions && s.sessions[su.SlugOf(600)].stage == Open
    ensures Leads(su, Desk(s, FirstLost(g), TWO), [Rolling(Rollover.Manage(900.0))], Desk(AwaitingClose(s, su.SlugOf(600)), ThirdTearing(g), TWO))
  {
    ThirdSteps(su.Timing(), g);
    TurnCloses(su, s, TWO, 900.0, su.SlugOf(600), FirstLost(g), ThirdTearing(g));
  }

  lemma ThirdWaits(su: Setup, g: Gap, s: System)
    requires GapSetup(su) && GapOk(g)
    ensures Leads(su, Desk(s, ThirdTearing(g), TWO), [Rolling(Rollover.Resume(true))], Desk(s, ThirdClosed(g), TWO))
  {
    ThirdSteps(su.Timing(), g);
    TurnWaits(su, s, TWO, ThirdTearing(g), ThirdClosed(g));
  }

  /** Both windows that were bought in have settled against the buyer. */
  predicate BothLost(t: System, a: Meta, b: Meta) {
    && t.core.journal == [Bought(a, 0, 1), Bought(b, 1, 2)] && t.settled == [a.slug, b.slug]
    && a.slug in t.sessions && t.sessions[a.slug] == Session(a, 4.0, Done(Down))
    && b.slug in t.sessions && t.sessions[b.slug] == Session(b, 4.0, Done(Down))
  }

  lemma LosesBoth(su: Setup, s: System)
    requires GapSetup(su) && BothBought(su, s)
    ensures var s1 := Settle(s, su.SlugOf(0), Down);
            && Idle(s1.core) && su.SlugOf(600) in s1.sessions && s1.sessions[su.SlugOf(600)].stage == Open
            && var s2 := AwaitingClose(s1, su.SlugOf(600));
               && Idle(s2.core) && s2.sessions[su.SlugOf(600)].stage == Settling
               && BothLost(Settle(s2, su.SlugOf(600), Down), su.metaOf(0), su.metaOf(600))
  {
    AllApart(su);
    assert [] + [su.SlugOf(0)] == [su.SlugOf(0)] && [su.SlugOf(0)] + [su.SlugOf(600)] == [su.SlugOf(0), su.SlugOf(600)];
  }

  function SettleEvents(g: Gap): seq<Event> {
    [Rolling(Rollover.Oracle(g.b)), Rolling(Rollover.Manage(900.0)), Rolling(Rollover.Resume(true)), Rolling(Rollover.Oracle(g.e))]
  }

  lemma SettlesBoth(su: Setup, g: Gap, s: System) returns (t: System)
    requires GapSetup(su) && GapOk(g) && BothBought(su, s)
    ensures BothLost(t, su.metaOf(0), su.metaOf(600))
    ensures Leads(su, Desk(s, ThirdTrades(g), TWO), SettleEvents(g), Desk(t, ThirdLost(g), TWO))
  {
    var s1 := Settle(s, su.SlugOf(0), Down);
    var s2 := AwaitingClose(s1, su.SlugOf(600));
    t := Settle(s2, su.SlugOf(600), Down);
    AllApart(su);
    LosesBoth(su, s);
    LatePrint(su, g, s);
    ThirdCloses(su, g, s1);
    ThirdWaits(su, g, s2);
    LastPrint(su, g, s2);
    LeadsFour(su, Desk(s, ThirdTrades(g), TWO), Desk(s1, FirstLost(g), TWO), Desk(s2, ThirdTearing(g), TWO),
              Desk(s2, ThirdClosed(g), TWO), Desk(t, ThirdLost(g), TWO), Rolling(Rollover.Oracle(g.b)),
              Rolling(Rollover.Manage(900.0)), Rolling(Rollover.Resume(true)), Rolling(Rollover.Oracle(g.e)));
  }

  lemma Ends(su: Setup, g: Gap, s: System) returns (t: System)
    requires GapSetup(su) && GapOk(g) && AtSecond(su, s)
    ensures BothLost(t, su.metaOf(0), su.metaOf(600))
    ensures Leads(su, Desk(DraftedFor(s, su.metaOf(600)), ThirdTrades(g), TWO), Afterwards(g), Desk(t, ThirdLost(g), TWO))
  {
    var u := SecondShot(su, g, s);
    t := SettlesBoth(su, g, u);
    LeadsThen(su, Desk(DraftedFor(s, su.metaOf(600)), ThirdTrades(g), TWO), FillEvents(1), Desk(u, ThirdTrades(g), TWO),
              SettleEvents(g), Desk(t, ThirdLost(g), TWO));
  }

  // ---- what the day has cost

  /** Two windows of the first day. */
  predicate SameDay(a: Meta, b: Meta) {
    && a == Market5(a.windowStart, a.slug, a.upToken, a.downToken) && 0 <= a.windowStart < 86400 && a.upToken != a.downToken
    && b == Market5(b.windowStart, b.slug, b.upToken, b.downToken) && 0 <= b.windowStart < 86400 && b.upToken != b.downToken
    && a.slug != b.slug
  }

  lemma CostOfBoth(a: Meta, b: Meta, journal: seq<Posting>)
    requires SameDay(a, b) && journal == [Bought(a, 0, 1), Bought(b, 1, 2)]
    ensures NetCash(journal, a.slug) == NetCash(journal, b.slug) == -4.0
    ensures NetShares(journal, a.slug, a.downToken) == NetShares(journal, b.slug, b.downToken) == 0.0
  {
    assert journal[..1] == [Bought(a, 0, 1)] && journal[..1][..0] == [];
    assert Bought(a, 0, 1).fill.UsdcDelta() == -4.0 && Bought(b, 1, 2).fill.UsdcDelta() == -4.0;
    assert NetCash(journal[..1], a.slug) == -4.0 && NetCash(journal[..1], b.slug) == 0.0;
    assert NetShares(journal[..1], a.slug, a.downToken) == 0.0 && NetShares(journal[..1], b.slug, b.downToken) == 0.0;
  }

  lemma DayOfBoth(t: System, a: Meta, b: Meta)
    requires SameDay(a, b) && BothLost(t, a, b) && AccountsOk(t) && DaysOk(t)
    ensures t.accounts.Daily(0) == -8.0
  {
    CostOfBoth(a, b, t.core.journal);
    RealizedNow(t, a.slug);
    RealizedNow(t, b.slug);
    assert t.settled[..1] == [a.slug] && [a.slug][..0] == [];
    assert DaySum(t, [a.slug], 0) == -4.0;
    assert t.accounts.Daily(0) == DaySum(t, t.settled, 0);
  }

  lemma {:induction false} FairToo(su: Setup, d: Desk, events: seq<Event>)
    requires su.cfg.windowLength > 0 && InOrderRun(su, d, events)
    ensures FairDeskRun(su, d, events)
    decreases events
  {
    if events != [] { FairToo(su, After(su, d, events[0]), events[1..]); }
  }

  lemma BooksAtTheEnd(su: Setup, g: Gap, d: Desk, n: Desk, q: Desk)
    requires GapSetup(su) && Leads(su, OPENING, Before(su, g), d) && n == After(su, d, Looking(Certain(600)))
    requires Leads(su, n, Afterwards(g), q)
    ensures AccountsOk(q.sys) && DaysOk(q.sys)
  {
    OpeningInv(su);
    DeskRunInv(su, OPENING, Before(su, g));
    EventOk(su, d, Looking(Certain(600)));
    FairToo(su, n, Afterwards(g));
    DeskRunOk(su, n, Afterwards(g));
  }

  // ---- what the gate does not see

  /** The day's figure is untouched, but the first window waits with 4 to lose. */
  lemma WorstAtSecond(su: Setup, s: System)
    requires GapSetup(su) && AtSecond(su, s) && AccountsOk(s)
    ensures WorstDay(s, 0) == -4.0
  {
    AllApart(su);
    WaitingLoser(su, s);
    NoOtherLoser(su, s, 300);
    NoOtherLoser(su, s, 600);
    assert Losers(s, 0) == {su.SlugOf(0)};
    WorseSumOut(s, {su.SlugOf(0)}, su.SlugOf(0));
    assert {su.SlugOf(0)} - {su.SlugOf(0)} == {};
    assert s.accounts.Daily(0) == 0.0;
  }

  lemma WaitingLoser(su: Setup, s: System)
    requires GapSetup(su) && AtSecond(su, s) && AccountsOk(s)
    ensures su.SlugOf(0) in UnsettledOf(s, 0) && Worse(s, su.SlugOf(0)) == -4.0
  {
    var m := su.metaOf(0);
    var p := Bought(m, 0, 1);
    AllApart(su);
    OnePosting(s, p, su.SlugOf(0));
    var position := Position(m.upToken, 5.0, -4.0, 0.0, 0.0);
    assert p.fill.UsdcDelta() == -4.0 && p.fill.SharesDelta() == 5.0;
    assert s.accounts.BookFor(su.SlugOf(0)).positions == [position];
    OneTotal(position, m.upToken);
    OneTotal(position, m.downToken);
    assert s.sessions[su.SlugOf(0)].meta == m;
  }

  lemma OneTotal(p: Position, winner: string)
    ensures SettleTotal([p], winner) == Redeem(p, winner)
  {
    assert [p][1..] == [];
  }

  lemma OnePosting(s: System, p: Posting, slug: string)
    requires AccountsOk(s) && s.core.journal == [p]
    ensures s.accounts.BookFor(slug).positions == if p.slug == slug then Post([], p.fill) else []
  {
    assert [p][..0] == [];
    assert BookOfPostings([p], slug).positions == if p.slug == slug then Post([], p.fill) else [];
    assert s.accounts.BookFor(slug).positions == BookOfPostings(s.core.journal, slug).positions;
  }

  lemma NoOtherLoser(su: Setup, s: System, ws: int)
    requires GapSetup(su) && AtSecond(su, s) && AccountsOk(s) && ws in {300, 600}
    ensures su.SlugOf(ws) in s.sessions && Worse(s, su.SlugOf(ws)) == 0.0
  {
    AllApart(su);
    OnePosting(s, Bought(su.metaOf(0), 0, 1), su.SlugOf(ws));
  }

  lemma BooksAtSecond(su: Setup, events: seq<Event>)
    requires SetupOk(su) && InOrderRun(su, OPENING, events)
    ensures AccountsOk(DeskRun(su, OPENING, events).sys)
  {
    OpeningInv(su);
    DeskRunInv(su, OPENING, events);
  }

  /** The gate looks at one intent's stake alone. In this run, in order but for its second shot, both buys are admitted
      and the day loses 8 with a limit of 5: the second shot comes while the boundary that settles the first window has
      not been captured. */
  lemma GateAloneIsNotEnough(su: Setup, g: Gap)
    requires GapSetup(su) && GapOk(g)
    ensures InOrderRun(su, OPENING, Before(su, g))
    ensures var d := DeskRun(su, OPENING, Before(su, g));
            var n := After(su, d, Looking(Certain(600)));
            && Shot(su, d, Certain(600)).Some? && Evaluates(su, d) && !BoundariesCaptured(su, d)
            && d.sys.accounts.Daily(0) - Stake(BUY) > -su.cfg.maxDailyLoss >= WorstDay(d.sys, 0) - Stake(BUY)
            && InOrderRun(su, n, Afterwards(g))
            && DeskRun(su, n, Afterwards(g)).sys.accounts.Daily(0) == -8.0 < -su.cfg.maxDailyLoss
  {
    var s := ComesToSecond(su, g);
    SecondLook(su, g, s);
    var t := Ends(su, g, s);
    var d, q := Desk(s, ThirdTrades(g), ONE), Desk(t, ThirdLost(g), TWO);
    BooksAtTheEnd(su, g, d, After(su, d, Looking(Certain(600))), q);
    AllApart(su);
    DayOfBoth(t, su.metaOf(0), su.metaOf(600));
    BooksAtSecond(su, Before(su, g));
    WorstAtSecond(su, s);
    BuyAdmitted(s, su.metaOf(600));
  }

  // ---- such a setup exists

  function Ones(n: nat): (s: string)
    ensures |s| == n
  {
    if n == 0 then "" else "1" + Ones(n - 1)
  }

  /** A name for a window, of one of three kinds. */
  function NameOf(kind: char, ws: int): string {
    [kind, if ws < 0 then '-' else '+'] + Ones(if ws < 0 then -ws else ws)
  }

  function Found(ws: int): Meta {
    Market5(ws, NameOf('s', ws), NameOf('u', ws), NameOf('d', ws))
  }

  lemma NamesDiffer(j: char, k: char, a: int, b: int)
    requires j != k || a != b
    ensures NameOf(j, a) != NameOf(k, b)
  {
    var x, y := NameOf(j, a), NameOf(k, b);
    assert x[0] == j && y[0] == k && x[1] == (if a < 0 then '-' else '+') && y[1] == (if b < 0 then '-' else '+');
    assert |x| == 2 + (if a < 0 then -a else a) && |y| == 2 + (if b < 0 then -b else b);
  }

  lemma SuchSetup()
    ensures GapSetup(Setup(MODE, SMALL, 0.0, Found))
  {
    var su := Setup(MODE, SMALL, 0.0, Found);
    forall ws ensures MetaOk(su.cfg, ws, su.metaOf(ws)) { NamesDiffer('u', 'd', ws, ws); }
    forall a, b | a != b ensures Apart(su.metaOf(a), su.metaOf(b)) {
      NamesDiffer('s', 's', a, b);
      NamesDiffer('u', 'u', a, b);
      NamesDiffer('u', 'd', a, b);
      NamesDiffer('d', 'u', a, b);
      NamesDiffer('d', 'd', a, b);
    }
  }
}
