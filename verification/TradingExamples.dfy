/** A buy that is admitted, submitted and filled whole, step by step; and a lawful run that raises. */
module TradingExamples {
  import opened Grid
  import opened Orders
  import opened Books
  import opened Matching
  import opened Exchange
  import opened Ledger
  import opened Risk
  import opened Trading

  // ---- running step by step

  lemma RunFirst(cfg: Config, s: System, step: Step, rest: seq<Step>, t: System)
    requires Lawful(s, step) && Next(cfg, s, step) == t && LawfulRun(cfg, t, rest)
    ensures LawfulRun(cfg, s, [step] + rest) && Run(cfg, s, [step] + rest) == Run(cfg, t, rest)
  {
    assert ([step] + rest)[1..] == rest;
  }

  lemma RunTwo(cfg: Config, s: System, s1: System, s2: System, a: Step, b: Step, rest: seq<Step>)
    requires Lawful(s, a) && Next(cfg, s, a) == s1 && Lawful(s1, b) && Next(cfg, s1, b) == s2 && LawfulRun(cfg, s2, rest)
    ensures LawfulRun(cfg, s, [a, b] + rest) && Run(cfg, s, [a, b] + rest) == Run(cfg, s2, rest)
  {
    RunFirst(cfg, s1, b, rest, s2);
    RunFirst(cfg, s, a, [b] + rest, s1);
    assert [a, b] + rest == [a] + ([b] + rest);
  }

  lemma RunThree(cfg: Config, s: System, s1: System, s2: System, s3: System, a: Step, b: Step, c: Step, rest: seq<Step>)
    requires Lawful(s, a) && Next(cfg, s, a) == s1 && Lawful(s1, b) && Next(cfg, s1, b) == s2
    requires Lawful(s2, c) && Next(cfg, s2, c) == s3 && LawfulRun(cfg, s3, rest)
    ensures LawfulRun(cfg, s, [a, b, c] + rest) && Run(cfg, s, [a, b, c] + rest) == Run(cfg, s3, rest)
  {
    RunTwo(cfg, s1, s2, s3, b, c, rest);
    RunFirst(cfg, s, a, [b, c] + rest, s1);
    assert [a, b, c] + rest == [a] + ([b, c] + rest);
  }

  // ---- a buy that gets its whole size from one level

  lemma OneLevelWalk(o: Order, b: Book, key: string)
    requires o.side == Buy && o.size > 0.0 && b.asks == [Level(key, o.price, o.size)]
    ensures TakerQuotes(o, b) == Walked([Quote(o.price, o.size)], 0.0)
  {
    var lv := Level(key, o.price, o.size);
    assert [lv][1..] == [];
    assert Ranked(Sell, []) == [];
    assert Ranked(Sell, [lv]) == [lv];
    assert Walk(Buy, o.price, [], 0.0) == Walked([], 0.0);
    assert Walk(Buy, o.price, [lv], o.size) == Walked([Quote(o.price, o.size)], 0.0);
  }

  /** The fill of a whole order at its own price. */
  function WholeFill(o: Order, id: nat, rate: real, number: nat): Fill {
    MakeFill(o, id, rate, o.price, o.size, true, number)
  }

  predicate Fresh(o: Order) {
    o.side == Buy && o.tif == FAK && o.size > 0.0 && o.state == Acked && o.filled == 0.0 && o.seen == {}
  }

  lemma EmitsWhole(c: Core, m: Market, id: nat, rate: real)
    requires id < |c.orders| && id in c.acked && !c.fault && Fresh(c.orders[id]) && m.FeeOf(c.orders[id].token) == Some(rate)
    ensures var o := c.orders[id]; var r := EmitFill(c, m, id, o.price, o.size, true);
            && !r.fault && r.journal == c.journal + [Posting(o.slug, id, WholeFill(o, id, rate, c.tradeSeq + 1))]
            && r == c.(orders := r.orders, tradeSeq := c.tradeSeq + 1, journal := r.journal) && |r.orders| == |c.orders|
  {
  }

  lemma TakesWhole(c: Core, m: Market, id: nat, b: Book, key: string, rate: real)
    requires id < |c.orders| && id in c.acked && !c.fault && Fresh(c.orders[id]) && m.FeeOf(c.orders[id].token) == Some(rate)
    requires b.asks == [Level(key, c.orders[id].price, c.orders[id].size)]
    ensures TakerFill(c, m, id, b) == EmitFill(c, m, id, c.orders[id].price, c.orders[id].size, true)
  {
    var o := c.orders[id];
    OneLevelWalk(o, b, key);
    EmitsWhole(c, m, id, rate);
    var q := [Quote(o.price, o.size)];
    assert q[1..] == [];
    assert EmitAll(c, m, id, q) == EmitFill(c, m, id, o.price, o.size, true);
  }

  /** process_due with that order's place as the only thing pending. */
  lemma ProcessesWhole(c: Core, m: Market, id: nat, b: Book, key: string, rate: real)
    requires id < |c.orders| && id in c.acked && !c.fault && Fresh(c.orders[id])
    requires c.places == [Pending(0, id)] && c.cancels == [] && c.resting == []
    requires m.BookOf(c.orders[id].token) == Some(b) && !b.dirty && m.FeeOf(c.orders[id].token) == Some(rate)
    requires b.asks == [Level(key, c.orders[id].price, c.orders[id].size)]
    ensures Indexed(c)
    ensures var o, r := c.orders[id], ProcessDue(c, m, 0);
            && !r.fault && r.journal == c.journal + [Posting(o.slug, id, WholeFill(o, id, rate, c.tradeSeq + 1))]
            && r == c.(orders := r.orders, tradeSeq := c.tradeSeq + 1, journal := r.journal, places := [])
            && |r.orders| == |c.orders|
  {
    var p := Pending(0, id);
    var c1 := c.(places := []);
    assert [p][1..] == [];
    assert DueBy([], 0) == [] && DueAfter([], 0) == [] && ByDue([]) == [];
    assert DueBy([p], 0) == [p] && DueAfter([p], 0) == [] && ByDue([p]) == [p];
    TakesWhole(c1, m, id, b, key, rate);
    EmitsWhole(c1, m, id, rate);
    var r := Arrive(c1, m, p);
    assert ArriveAll(c1, m, [p]) == r;
    assert ProcessPlaces(c, m, 0) == r;
    assert ProcessCancels(r, 0) == r;
  }

  // ---- one window that is bought in

  /** A cap of 4 a window, a loss limit of 5 a day, windows of five minutes. */
  const SMALL: Config :=
    Config(4.0, 4.0, 1.0, 1.0, 100.0, 5.0, 10, 1, 1.0, 1.0, 1.0, 1.0, 0.0, 250.0, 10.0, 300)

  function Market5(start: int, slug: string, up: string, down: string): Meta {
    Meta(start, start + 300, slug, up, down, 1.0, 0, true)
  }

  /** Five shares offered at 0.8. */
  const OFFER: Book := Book([], [Level("0.8", 0.8, 5.0)], false)

  const BUY: Intent := Intent(Up, Buy, 0.8, 5.0, FAK)

  /** A hundred seconds into the window, with everything fresh and nothing else exposed. */
  function Calm(meta: Meta): View {
    View(meta.windowStart as real + 100.0, false, 0, true, 5.0, false, Some(0.0), Some(0.0), Some(0.0), false, 0.0)
  }

  predicate Idle(c: Core) {
    !c.fault && c.places == [] && c.cancels == [] && c.resting == []
  }

  /** A window of the first day that has not been traded, whose offer is OFFER, on a day with nothing realised. */
  predicate Untraded(s: System, meta: Meta) {
    && Idle(s.core) && meta == Market5(meta.windowStart, meta.slug, meta.upToken, meta.downToken)
    && 0 <= meta.windowStart && meta.windowStart + 100 < 86400
    && meta.slug in s.sessions && s.sessions[meta.slug] == Session(meta, 0.0, Open)
    && s.market.BookOf(meta.upToken) == Some(OFFER) && s.market.FeeOf(meta.upToken) == Some(0.0)
    && s.accounts.Daily(0) == 0.0
  }

  lemma OfferOnGrid()
    ensures BookOnGrid(OFFER) && OnLot(5.0) && OnTick(0.8)
  {
    assert 5.0 == Times(5000000, LOT) && 0.8 == Times(8000, TICK);
  }

  lemma BuyAdmitted(s: System, meta: Meta)
    requires Untraded(s, meta)
    ensures Admitted(SMALL, s, meta.slug, BUY, Calm(meta)) && Stake(BUY) == 4.0
  {
    var v := Calm(meta);
    EntryAllowedIff(SMALL, v.killed, v.cooldownUntil, meta, BUY, ContextOf(s, meta.slug, v));
    assert DayOf(v.now.Floor) == 0;
  }

  function Bought(meta: Meta, id: nat, number: nat): Posting {
    Posting(meta.slug, id, Fill(ExchangeRef(id), meta.upToken, Buy, 0.8, 5.0, 0.0, 0.0, Shadow(number)))
  }

  function OrderOf(meta: Meta): Order {
    NewOrder(meta.slug, meta.upToken, Buy, 0.8, 5.0, FAK)
  }

  function DraftedFor(s: System, meta: Meta): System {
    s.(core := Drafted(s.core, OrderOf(meta)), sessions := s.sessions[meta.slug := Session(meta, 4.0, Open)])
  }

  lemma Drafts(s: System, meta: Meta)
    requires Untraded(s, meta)
    ensures Next(SMALL, s, Intend(meta.slug, BUY, Calm(meta))) == DraftedFor(s, meta)
  {
    BuyAdmitted(s, meta);
  }

  function SubmittedFor(s: System, meta: Meta): System {
    var n, d := |s.core.orders|, DraftedFor(s, meta);
    d.(core := d.core.(orders := s.core.orders + [OrderOf(meta).(state := Acked)],
                       places := [Pending(0, n)], acked := s.core.acked + {n}))
  }

  lemma Submits(s: System, meta: Meta)
    requires Untraded(s, meta)
    ensures Next(SMALL, DraftedFor(s, meta), SubmitOrder(|s.core.orders|, 0)) == SubmittedFor(s, meta)
  {
    var n, o := |s.core.orders|, OrderOf(meta);
    var all := s.core.orders + [o];
    assert all[n := o.(state := Signed)][n := o.(state := Sent)][n := o.(state := Acked)] == s.core.orders + [o.(state := Acked)];
    assert Submit(DraftedFor(s, meta).core, n, 0) == SubmittedFor(s, meta).core;
    assert s.core.journal[|s.core.journal|..] == [];
  }

  /** The order is filled: one posting more, and nothing pending. */
  predicate Trades(s: System, t: System, meta: Meta) {
    && Idle(t.core) && |t.core.orders| == |s.core.orders| + 1 && t.core.tradeSeq == s.core.tradeSeq + 1
    && t.core.journal == s.core.journal + [Bought(meta, |s.core.orders|, s.core.tradeSeq + 1)]
    && t.sessions == s.sessions[meta.slug := Session(meta, 4.0, Open)]
    && t.market == s.market && t.settled == s.settled && t.accounts.daily == s.accounts.daily
  }

  lemma Fills(s: System, meta: Meta)
    requires Untraded(s, meta)
    ensures Trades(s, Next(SMALL, SubmittedFor(s, meta), ElapseTo(0)), meta)
  {
    var n, u := |s.core.orders|, SubmittedFor(s, meta);
    ProcessesWhole(u.core, u.market, n, OFFER, "0.8", 0.0);
    assert WholeFill(OrderOf(meta).(state := Acked), n, 0.0, s.core.tradeSeq + 1) == Bought(meta, n, s.core.tradeSeq + 1).fill;
    var r := ProcessDue(u.core, u.market, 0);
    assert r.journal[|s.core.journal|..] == [Bought(meta, n, s.core.tradeSeq + 1)];
    var posting := Bought(meta, n, s.core.tradeSeq + 1);
    assert [posting][1..] == [];
    assert PostAll(u.accounts, [posting]) == u.accounts.ApplyFill(posting.slug, posting.fill);
    var t := Next(SMALL, u, ElapseTo(0));
    assert t == WithCore(u, r);
  }

  // ---- a cancel that overtakes its order's submission

  function Offered(s: System, token: string): System {
    s.(market := s.market.(books := s.market.books[token := OFFER]))
  }

  function ListedOne(a: Meta): System {
    START.(sessions := map[a.slug := Session(a, 0.0, Open)], market := TrackMarket(START.market, a))
  }

  /** Opened, offered, drafted, cancelled before it was ever submitted, and polled when the cancel falls due. */
  function UnsentSteps(a: Meta, due: int): seq<Step> {
    [OpenSession(a), BookEvent(a.upToken, OFFER)] + ([Intend(a.slug, BUY, Calm(a)), AskCancelOrder(0, due), ElapseTo(due)] + [])
  }

  function CancelAsked(s: System, meta: Meta, due: int): System
    requires s.core == EMPTY
  {
    var d := DraftedFor(s, meta);
    d.(core := d.core.(orders := [OrderOf(meta).(cancelRequested := true)], cancels := [Pending(due, 0)]))
  }

  lemma AsksCancel(s: System, meta: Meta, due: int)
    requires s.core == EMPTY
    ensures Next(SMALL, DraftedFor(s, meta), AskCancelOrder(0, due)) == CancelAsked(s, meta, due)
  {
    var d := DraftedFor(s, meta);
    assert d.core.orders == [OrderOf(meta)] && d.core.cancels + [Pending(due, 0)] == [Pending(due, 0)];
    assert RequestCancel(d.core, 0, due) == CancelAsked(s, meta, due).core;
    assert d.core.journal[0..] == [];
  }

  /** The cancel finds its order in DRAFT. */
  lemma UnsentRaises(s: System, meta: Meta, due: int)
    requires s.core == EMPTY
    ensures Next(SMALL, CancelAsked(s, meta, due), ElapseTo(due)).core.fault
  {
    var c, p := CancelAsked(s, meta, due).core, Pending(due, 0);
    assert DueBy([], due) == [] && DueAfter([], due) == [] && ByDue([]) == [];
    assert [p][1..] == [] && DueBy([p], due) == [p] && DueAfter([p], due) == [] && ByDue([p]) == [p];
    assert ProcessPlaces(c, s.market, due) == c;
    assert ArriveCancel(c.(cancels := []), 0).fault;
    assert CancelAllDue(c.(cancels := []), [p]).fault;
    assert ProcessDue(c, s.market, due).fault;
  }

  lemma UnsentRun(a: Meta, due: int, s: System)
    requires Untraded(s, a) && s.core == EMPTY
    ensures var steps := [Intend(a.slug, BUY, Calm(a)), AskCancelOrder(0, due), ElapseTo(due)] + [];
            LawfulRun(SMALL, s, steps) && Run(SMALL, s, steps).core.fault
  {
    var asked := CancelAsked(s, a, due);
    OfferOnGrid();
    Drafts(s, a);
    AsksCancel(s, a, due);
    UnsentRaises(s, a, due);
    RunThree(SMALL, s, DraftedFor(s, a), asked, Next(SMALL, asked, ElapseTo(due)),
             Intend(a.slug, BUY, Calm(a)), AskCancelOrder(0, due), ElapseTo(due), []);
  }

  /** A lawful run from the start can raise: an admitted order is cancelled before it is submitted, and process_due
      raises when the cancel falls due. */
  lemma UnsentCancelRaises(a: Meta, due: int)
    requires a == Market5(0, a.slug, a.upToken, a.downToken) && a.upToken != a.downToken
    ensures LawfulRun(SMALL, START, UnsentSteps(a, due)) && Run(SMALL, START, UnsentSteps(a, due)).core.fault
  {
    var s := Offered(ListedOne(a), a.upToken);
    var rest := [Intend(a.slug, BUY, Calm(a)), AskCancelOrder(0, due), ElapseTo(due)] + [];
    OfferOnGrid();
    UnsentRun(a, due, s);
    assert Next(SMALL, START, OpenSession(a)) == ListedOne(a);
    RunTwo(SMALL, START, ListedOne(a), s, OpenSession(a), BookEvent(a.upToken, OFFER), rest);
    assert UnsentSteps(a, due) == [OpenSession(a), BookEvent(a.upToken, OFFER)] + rest;
  }
}
