/** Every lawful step keeps the invariant of the whole system, and raises exactly when it is one of two kinds of misuse. */
module TradingInvariant {
  import opened Grid
  import opened Orders
  import opened Books
  import opened Exchange
  import opened OneOrder
  import opened Projection
  import opened NonInterference
  import opened OrderBounds
  import opened CoreBounds
  import opened Ledger
  import opened Risk
  import opened Trading
  import opened TradingBase

  // ---- what an operation on one order may not change

  lemma {:induction false} LandAllContract(l: Life, book: Option<Book>, fee: Option<real>, dues: seq<int>)
    requires l.order.seen == {}
    ensures SameContract(l.order, LandAll(l, book, fee, dues).order)
    ensures book.None? ==> LandAll(l, book, fee, dues).fills == l.fills
    decreases dues
  {
    if dues != [] && !l.raised {
      LandKeepsTerms(l, book, fee, dues[0]);
      LandAllContract(Land(l, book, fee, dues[0]), book, fee, dues[1..]);
    }
  }

  lemma {:induction false} DropAllContract(l: Life, dues: seq<int>)
    ensures SameContract(l.order, DropAll(l, dues).order) && DropAll(l, dues).fills == l.fills
    decreases dues
  {
    if dues != [] && !l.raised {
      DropAllContract(Drop(l), dues[1..]);
    }
  }

  lemma ElapseContract(l: Life, book: Option<Book>, fee: Option<real>, now: int)
    requires l.order.seen == {}
    ensures SameContract(l.order, Elapse(l, book, fee, now).order)
    ensures book.None? ==> Elapse(l, book, fee, now).fills == l.fills
  {
    LandAllContract(l.(places := TimesAfter(l.places, now)), book, fee, SortTimes(TimesBy(l.places, now)));
    var l1 := PlacesDue(l, book, fee, now);
    DropAllContract(l1.(cancels := TimesAfter(l1.cancels, now)), SortTimes(TimesBy(l1.cancels, now)));
  }

  lemma TapeContract(l: Life, fee: Option<real>, tp: Print)
    requires l.order.seen == {}
    ensures SameContract(l.order, Tape(l, fee, tp).order)
    ensures l.order.token != tp.token ==> Tape(l, fee, tp) == l
  {
  }

  // ---- steps of the order manager and the exchange

  /** On the lot grid the invariant is the bounds and more. */
  lemma InvBounded(cfg: Config, s: System)
    requires Inv(cfg, s)
    ensures Bounded(cfg, s)
  {
    forall i | 0 <= i < |s.core.orders| ensures Within(LifeOf(s.core, i)) && Tallied(LifeOf(s.core, i)) {
      CoupledWithin(LifeOf(s.core, i));
    }
  }

  /** What an order can meet in the market: its book is usable, and gone once its session has settled. */
  lemma MarketFor(cfg: Config, s: System, i: nat)
    requires Inv(cfg, s) && i < |s.core.orders|
    ensures Usable(BookFor(s.core, s.market, i), FeeFor(s.core, s.market, i))
    ensures s.core.orders[i].token in s.market.books ==> FeeKnown(FeeFor(s.core, s.market, i))
    ensures s.core.orders[i].slug in s.sessions && s.sessions[s.core.orders[i].slug].stage.Done? ==>
              BookFor(s.core, s.market, i).None?
  {
    assert s.core.orders[i] in s.core.orders;
  }

  lemma CaughtOk(r: Core)
    requires Orderly(r) && forall i :: 0 <= i < |r.orders| ==> Coupled(LifeOf(r, i))
    ensures CoreOk(Caught(r))
  {
    forall i | 0 <= i < |r.orders| ensures Coupled(LifeOf(Caught(r), i)) { assert LifeOf(Caught(r), i) == LifeOf(r, i); }
  }

  /** One operation on one order that keeps its coupling, raising or not. */
  lemma MovedOk(c: Core, r: Core, id: nat, l: Life)
    requires CoreOk(c) && id < |c.orders| && Moved(c, r, id, l) && Coupled(l.(raised := false))
    ensures CoreOk(Caught(r))
  {
    forall i | 0 <= i < |r.orders| ensures Coupled(LifeOf(r, i)) {
      if i != id { assert LifeOf(r, i) == LifeOf(c, i); }
    }
    CaughtOk(r);
  }

  lemma {:induction false} DueMeans(ps: seq<Pending>, now: int, id: nat)
    ensures TimesBy(Of(ps, id), now) != [] <==> exists p <- ps :: p.id == id && p.due <= now
  {
    if ps != [] {
      DueMeans(ps[1..], now, id);
      assert ps == [ps[0]] + ps[1..];
      if ps[0].id == id { TimesCons(ps[0].due, Of(ps[1..], id), now); }
    }
  }

  /** A cancel falls due for an order that is still in DRAFT. */
  ghost predicate Overdue(s: System, now: int) {
    exists p <- s.core.cancels :: p.due <= now && p.id < |s.core.orders| && s.core.orders[p.id].state == Draft
  }

  /** The two ways a caller can make the order manager raise: submitting an order twice, and letting a cancel
      fall due for an order that is still in DRAFT. */
  ghost predicate Misuse(s: System, step: Step) {
    match step
    case SubmitOrder(id, _) => id < |s.core.orders| && s.core.orders[id].state != Draft
    case ElapseTo(now) => Overdue(s, now)
    case _ => false
  }

  lemma SubmitStep(cfg: Config, s: System, id: nat, due: int)
    requires Inv(cfg, s) && id < |s.core.orders|
    ensures Submit(s.core, id, due).fault <==> s.core.orders[id].state != Draft
    ensures CoreOk(Caught(Submit(s.core, id, due)))
  {
    SendMoves(s.core, id, due);
    SendCoupled(LifeOf(s.core, id), due);
    assert Send(LifeOf(s.core, id), due).raised ==> Send(LifeOf(s.core, id), due).(raised := false) == LifeOf(s.core, id);
    MovedOk(s.core, Submit(s.core, id, due), id, Send(LifeOf(s.core, id), due));
  }

  lemma AskCancelStep(cfg: Config, s: System, id: nat, due: int)
    requires Inv(cfg, s) && id < |s.core.orders|
    ensures CoreOk(RequestCancel(s.core, id, due))
  {
    AskCancelMoves(s.core, id, due);
    AskCancelCoupled(LifeOf(s.core, id), due);
    assert AskCancel(LifeOf(s.core, id), due).(raised := false) == AskCancel(LifeOf(s.core, id), due);
    MovedOk(s.core, RequestCancel(s.core, id, due), id, AskCancel(LifeOf(s.core, id), due));
  }

  lemma CancelSessionStep(cfg: Config, s: System, slug: string, now: int, lag: nat -> nat)
    requires Inv(cfg, s)
    ensures CoreOk(CancelAll(s.core, slug, now, lag))
  {
    var c := CancelAll(s.core, slug, now, lag);
    CancelAllProjects(s.core, slug, now, lag);
    forall i | 0 <= i < |c.orders| ensures Coupled(LifeOf(c, i)) {
      AskCancelAllCoupled(LifeOf(s.core, i), slug, now + lag(i));
    }
  }

  lemma ElapseStepOne(cfg: Config, s: System, now: int, i: nat)
    requires Inv(cfg, s) && i < |s.core.orders|
    ensures var r := Elapse(LifeOf(s.core, i), BookFor(s.core, s.market, i), FeeFor(s.core, s.market, i), now);
            && (r.raised <==> s.core.orders[i].state == Draft && exists p <- s.core.cancels :: p.id == i && p.due <= now)
            && (!r.raised ==> Coupled(r))
  {
    MarketFor(cfg, s, i);
    ElapseCoupled(LifeOf(s.core, i), BookFor(s.core, s.market, i), FeeFor(s.core, s.market, i), now);
    DueMeans(s.core.cancels, now, i);
  }

  lemma ElapseFaults(cfg: Config, s: System, now: int)
    requires Inv(cfg, s) && Overdue(s, now)
    ensures ProcessDue(s.core, s.market, now).fault
  {
    var p :| p in s.core.cancels && p.due <= now && p.id < |s.core.orders| && s.core.orders[p.id].state == Draft;
    ElapseStepOne(cfg, s, now, p.id);
    ProcessDueProjects(s.core, s.market, now);
  }

  lemma ElapseFaultMeans(cfg: Config, s: System, now: int)
    requires Inv(cfg, s) && ProcessDue(s.core, s.market, now).fault
    ensures Overdue(s, now)
  {
    ProcessDueProjects(s.core, s.market, now);
    var i :| 0 <= i < |s.core.orders| && Elapse(LifeOf(s.core, i), BookFor(s.core, s.market, i), FeeFor(s.core, s.market, i), now).raised;
    ElapseStepOne(cfg, s, now, i);
  }

  /** No place raises, on the lot grid. */
  lemma PlacesQuiet(cfg: Config, s: System, now: int)
    requires Inv(cfg, s)
    ensures !ProcessPlaces(s.core, s.market, now).fault
  {
    PlacesProject(s.core, s.market, now);
    forall i | 0 <= i < |s.core.orders|
      ensures !PlacesDue(LifeOf(s.core, i), BookFor(s.core, s.market, i), FeeFor(s.core, s.market, i), now).raised
    {
      MarketFor(cfg, s, i);
      PlacesDueCoupled(LifeOf(s.core, i), BookFor(s.core, s.market, i), FeeFor(s.core, s.market, i), now);
    }
  }

  lemma UpToCoupled(l: Life, book: Option<Book>, fee: Option<real>, now: int, k: nat)
    requires Coupled(l) && Usable(book, fee)
    ensures Coupled(ElapseUpTo(l, book, fee, now, k))
  {
    PlacesDueCoupled(l, book, fee, now);
    var l1 := PlacesDue(l, book, fee, now);
    var dues := SortTimes(TimesBy(l1.cancels, now));
    DropAllCalm(l1.(cancels := TimesAfter(l1.cancels, now)), if k <= |dues| then dues[..k] else dues);
  }

  lemma ElapsedCoupled(cfg: Config, s: System, now: int, i: nat)
    requires Inv(cfg, s) && i < |s.core.orders|
    ensures Coupled(LifeOf(ProcessDue(s.core, s.market, now), i))
  {
    PlacesQuiet(cfg, s, now);
    MarketFor(cfg, s, i);
    var k := ElapseCut(s.core, s.market, now, i);
    UpToCoupled(LifeOf(s.core, i), BookFor(s.core, s.market, i), FeeFor(s.core, s.market, i), now, k);
  }

  lemma ElapseStep(cfg: Config, s: System, now: int)
    requires Inv(cfg, s)
    ensures CoreOk(Caught(ProcessDue(s.core, s.market, now)))
  {
    PlacesQuiet(cfg, s, now);
    ProcessDueOrderly(s.core, s.market, now);
    forall i | 0 <= i < |s.core.orders| ensures Coupled(LifeOf(ProcessDue(s.core, s.market, now), i)) {
      ElapsedCoupled(cfg, s, now, i);
    }
    CaughtOk(ProcessDue(s.core, s.market, now));
  }

  lemma TickStep(cfg: Config, s: System, tp: Print)
    requires Inv(cfg, s) && tp.token in s.market.books && OnLot(tp.size)
    ensures !OnTrade(s.core, s.market, tp).fault && CoreOk(OnTrade(s.core, s.market, tp))
  {
    var r := OnTrade(s.core, s.market, tp);
    OnTradeProjects(s.core, s.market, tp);
    forall i | 0 <= i < |s.core.orders|
      ensures Coupled(Tape(LifeOf(s.core, i), FeeFor(s.core, s.market, i), tp))
    {
      MarketFor(cfg, s, i);
      TapeCoupled(LifeOf(s.core, i), FeeFor(s.core, s.market, i), tp);
      if s.core.orders[i].token != tp.token { assert Tape(LifeOf(s.core, i), FeeFor(s.core, s.market, i), tp) == LifeOf(s.core, i); }
    }
  }

  lemma OpenSessionMarket(s: System, meta: Meta)
    requires MarketOk(s.market) && 0 <= meta.feeRateBps <= 10000
    ensures MarketOk(TrackMarket(s.market, meta))
  {
  }

  lemma DraftCore(s: System, slug: string, i: Intent)
    requires CoreOk(s.core) && slug in s.sessions
    requires OnLot(i.size) && i.size > 0.0 && OnTick(i.price) && i.price >= 0.0
    ensures CoreOk(DraftOrder(s, slug, i).core)
  {
    var o := NewOrder(slug, s.sessions[slug].meta.TokenFor(i.outcome), i.side, i.price, i.size, i.tif);
    DraftedProjects(s.core, o);
    ZeroIsMultiple(LOT);
  }

  // ---- every step

  /** What the lot grid adds to the bounds, step by step. */
  lemma StepOk(cfg: Config, s: System, step: Step)
    requires Inv(cfg, s) && Lawful(s, step)
    ensures Next(cfg, s, step).core.fault <==> Misuse(s, step)
    ensures CoreOk(Resumed(Next(cfg, s, step)).core) && MarketOk(Next(cfg, s, step).market)
  {
    match step
    case OpenSession(meta) => OpenSessionMarket(s, meta);
    case Intend(slug, i, v) => if Admitted(cfg, s, slug, i, v) { DraftCore(s, slug, i); }
    case SubmitOrder(id, due) => if id < |s.core.orders| { SubmitStep(cfg, s, id, due); }
    case AskCancelOrder(id, due) => if id < |s.core.orders| { AskCancelStep(cfg, s, id, due); }
    case CancelSession(slug, now, lag) => CancelSessionStep(cfg, s, slug, now, lag);
    case ElapseTo(now) =>
      ElapseStep(cfg, s, now);
      if Overdue(s, now) { ElapseFaults(cfg, s, now); }
      if ProcessDue(s.core, s.market, now).fault { ElapseFaultMeans(cfg, s, now); }
    case Tick(tape) => if tape.token in s.market.books { TickStep(cfg, s, tape); }
    case _ =>
  }

  lemma LawfulFair(s: System, step: Step)
    requires Lawful(s, step)
    ensures Fair(s, step)
  {
  }

  /** A lawful step raises exactly when it is a misuse, and keeps the invariant even then. */
  lemma StepInv(cfg: Config, s: System, step: Step)
    requires Inv(cfg, s) && Lawful(s, step) && cfg.maxStakePerWindow >= 0.0
    ensures Next(cfg, s, step).core.fault <==> Misuse(s, step)
    ensures Inv(cfg, Resumed(Next(cfg, s, step)))
  {
    InvBounded(cfg, s);
    LawfulFair(s, step);
    StepBounded(cfg, s, step);
    ResumedBounded(cfg, Next(cfg, s, step));
    StepOk(cfg, s, step);
  }

  lemma RunPrefix(cfg: Config, s: System, steps: seq<Step>, k: nat)
    requires k < |steps|
    ensures Run(cfg, s, steps[..k + 1]) == Run(cfg, Next(cfg, s, steps[0]), steps[1..][..k])
  {
    assert steps[..k + 1][1..] == steps[1..][..k];
  }

  /** The k-th step of the run raises exactly when it is a misuse. */
  ghost predicate RaisesAsMisused(cfg: Config, s: System, steps: seq<Step>, k: nat)
    requires k < |steps|
  {
    Run(cfg, s, steps[..k + 1]).core.fault <==> Misuse(Run(cfg, s, steps[..k]), steps[k])
  }

  lemma RaisesLater(cfg: Config, s: System, steps: seq<Step>, k: nat)
    requires 0 < k < |steps| && RaisesAsMisused(cfg, Next(cfg, s, steps[0]), steps[1..], k - 1)
    ensures RaisesAsMisused(cfg, s, steps, k)
  {
    RunPrefix(cfg, s, steps, k);
    RunPrefix(cfg, s, steps, k - 1);
  }

  lemma RaisesFirst(cfg: Config, s: System, steps: seq<Step>)
    requires steps != [] && (Next(cfg, s, steps[0]).core.fault <==> Misuse(s, steps[0]))
    ensures RaisesAsMisused(cfg, s, steps, 0)
  {
    RunPrefix(cfg, s, steps, 0);
  }

  /** The invariant holds at the end of every lawful run, whatever raised on the way; and a step of it raises exactly
      when it submits an order twice or lets a cancel fall due for an order still in DRAFT. */
  lemma {:induction false} RunInv(cfg: Config, s: System, steps: seq<Step>)
    requires Inv(cfg, Resumed(s)) && LawfulRun(cfg, s, steps) && cfg.maxStakePerWindow >= 0.0
    ensures Inv(cfg, Resumed(Run(cfg, s, steps)))
    ensures forall k :: 0 <= k < |steps| ==> RaisesAsMisused(cfg, s, steps, k)
    decreases steps
  {
    if steps != [] {
      var n := Next(cfg, s, steps[0]);
      StepInv(cfg, Resumed(s), steps[0]);
      RunInv(cfg, n, steps[1..]);
      RaisesFirst(cfg, s, steps);
      forall k | 0 < k < |steps| ensures RaisesAsMisused(cfg, s, steps, k) { RaisesLater(cfg, s, steps, k); }
    }
  }
}
