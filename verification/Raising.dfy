/** When a step of trading raises, at any sizes and after any exceptions: exactly which calls end in an illegal
    transition. */
module Raising {
  import opened Grid
  import opened Orders
  import opened Books
  import opened Exchange
  import opened OneOrder
  import opened Projection
  import opened NonInterference
  import opened OrderBounds
  import opened CoreBounds
  import opened Slivers
  import Matching
  import opened Risk
  import opened Trading
  import opened TradingBase
  import opened TradingInvariant

  // ---- one order

  /** An arriving order takes, and its book shows it a sliver. */
  ghost predicate MeetsSliver(o: Order, book: Option<Book>) {
    && book.Some? && !book.value.dirty && (o.tif in {FAK, FOK} || Crosses(o, book.value))
    && ShowsSliver(o.side, o.price, Reached(o, book.value), o.size)
  }

  lemma LandRaises(l: Life, book: Option<Book>, fee: Option<real>, due: int)
    requires Within(l) && Tallied(l) && !l.raised && Untouched(l) && l.order.state == Acked && l.order.seen == {}
    requires book.Some? ==> fee.Some?
    ensures Land(l, book, fee, due).raised <==> MeetsSliver(l.order, book)
  {
    if book.Some? { TakerRaisesIff(l, fee, book.value); }
  }

  lemma PlacesRaise(l: Life, book: Option<Book>, fee: Option<real>, now: int)
    requires Within(l) && Tallied(l) && !l.raised && l.order.seen == {} && (book.Some? ==> fee.Some?)
    ensures PlacesDue(l, book, fee, now).raised <==> TimesBy(l.places, now) != [] && MeetsSliver(l.order, book)
  {
    SingleTime(l.places, now);
    var l1, dues := l.(places := TimesAfter(l.places, now)), TimesBy(l.places, now);
    if dues != [] {
      assert dues[1..] == [];
      LandRaises(l1, book, fee, dues[0]);
      assert LandAll(l1, book, fee, dues) == Land(l1, book, fee, dues[0]);
    }
  }

  /** Cancels raise on an order in DRAFT, and on no other. */
  lemma {:induction false} DropAllRaises(l: Life, dues: seq<int>)
    requires l.order.state in {Draft, Acked, Partial, Filled, Canceled, Expired} && !l.raised
    ensures DropAll(l, dues).raised <==> dues != [] && l.order.state == Draft
    decreases dues
  {
    if dues != [] && l.order.state != Draft { DropAllRaises(Drop(l), dues[1..]); }
  }

  lemma PlacesState(l: Life, book: Option<Book>, fee: Option<real>, now: int)
    requires Within(l) && Tallied(l) && !l.raised && l.order.seen == {} && FeeFair(fee) && (book.Some? ==> BookOnTicks(book.value))
    ensures var r := PlacesDue(l, book, fee, now);
            && r.order.state in {Draft, Acked, Partial, Filled, Canceled, Expired}
            && (r.order.state == Draft <==> l.order.state == Draft) && r.cancels == l.cancels
  {
    SingleTime(l.places, now);
    var l1, dues := l.(places := TimesAfter(l.places, now)), TimesBy(l.places, now);
    if dues == [] {
      assert l.places == TimesAfter(l.places, now) && l1 == l && LandAll(l1, book, fee, []) == l1;
    } else {
      assert dues[1..] == [];
      assert LandAll(l1, book, fee, dues) == Land(l1, book, fee, dues[0]);
      LandWithin(l1, book, fee, dues[0]);
      LandTallied(l1, book, fee, dues[0]);
      LandCancels(l1, book, fee, dues[0]);
    }
  }

  lemma LandCancels(l: Life, book: Option<Book>, fee: Option<real>, due: int)
    requires l.order.seen == {}
    ensures Land(l, book, fee, due).cancels == l.cancels
  {
    if book.Some? { TakeCancels(l, fee, book.value); }
  }

  lemma TakeCancels(l: Life, fee: Option<real>, b: Book)
    ensures Take(l, fee, b).cancels == l.cancels
  {
    EmitQuotesCancels(l, fee, TakerQuotes(l.order, b).quotes);
  }

  lemma {:induction false} EmitQuotesCancels(l: Life, fee: Option<real>, quotes: seq<Matching.Quote>)
    ensures EmitQuotes(l, fee, quotes).cancels == l.cancels
    decreases quotes
  {
    if quotes != [] && !l.raised { EmitQuotesCancels(Emit(l, fee, quotes[0].price, quotes[0].size, true), fee, quotes[1..]); }
  }

  /** process_due raises on an order exactly when its due place meets a sliver or a cancel is due in DRAFT. */
  lemma ElapseRaises(l: Life, book: Option<Book>, fee: Option<real>, now: int)
    requires Within(l) && Tallied(l) && !l.raised && l.order.seen == {} && FeeFair(fee)
    requires book.Some? ==> fee.Some? && BookOnTicks(book.value)
    ensures Elapse(l, book, fee, now).raised
            <==> (TimesBy(l.places, now) != [] && MeetsSliver(l.order, book))
                 || (TimesBy(l.cancels, now) != [] && l.order.state == Draft)
  {
    PlacesRaise(l, book, fee, now);
    PlacesState(l, book, fee, now);
    var l1 := PlacesDue(l, book, fee, now);
    SortTimesEmpty(TimesBy(l1.cancels, now));
    if !l1.raised { DropAllRaises(l1.(cancels := TimesAfter(l1.cancels, now)), SortTimes(TimesBy(l1.cancels, now))); }
  }

  // ---- the system

  /** The place of a taking order falls due, and its book shows it a sliver. */
  ghost predicate SliverDue(s: System, now: int) {
    exists p <- s.core.places :: p.due <= now && p.id < |s.core.orders| && MeetsSliver(s.core.orders[p.id], BookFor(s.core, s.market, p.id))
  }

  /** The steps that end in an illegal transition. */
  ghost predicate Illegal(s: System, step: Step) {
    match step
    case SubmitOrder(id, _) => id < |s.core.orders| && s.core.orders[id].state != Draft
    case ElapseTo(now) => SliverDue(s, now) || Overdue(s, now)
    case _ => false
  }

  lemma MarketOf(cfg: Config, s: System, i: nat)
    requires Bounded(cfg, s) && i < |s.core.orders|
    ensures var book, fee := BookFor(s.core, s.market, i), FeeFor(s.core, s.market, i);
            FeeFair(fee) && (book.Some? ==> fee.Some? && BookOnTicks(book.value))
  {
    FairFor(s.core, s.market, i);
    if s.core.orders[i].token in s.market.books { FeeWhileTracked(cfg, s, s.core.orders[i].token); }
  }

  ghost predicate RaisesOn(s: System, now: int, i: nat)
    requires i < |s.core.orders|
  {
    || ((exists p <- s.core.places :: p.id == i && p.due <= now) && MeetsSliver(s.core.orders[i], BookFor(s.core, s.market, i)))
    || ((exists p <- s.core.cancels :: p.id == i && p.due <= now) && s.core.orders[i].state == Draft)
  }

  lemma SameSliver(o: Order, p: Order, book: Option<Book>)
    requires p == o.(seen := {})
    ensures MeetsSliver(p, book) <==> MeetsSliver(o, book)
  {
  }

  lemma OrderRaises(cfg: Config, s: System, now: int, i: nat)
    requires Bounded(cfg, s) && i < |s.core.orders|
    ensures Elapse(LifeOf(s.core, i), BookFor(s.core, s.market, i), FeeFor(s.core, s.market, i), now).raised <==> RaisesOn(s, now, i)
  {
    MarketOf(cfg, s, i);
    assert Within(LifeOf(s.core, i)) && Tallied(LifeOf(s.core, i));
    ElapseRaises(LifeOf(s.core, i), BookFor(s.core, s.market, i), FeeFor(s.core, s.market, i), now);
    SameSliver(s.core.orders[i], LifeOf(s.core, i).order, BookFor(s.core, s.market, i));
    DueMeans(s.core.places, now, i);
    DueMeans(s.core.cancels, now, i);
  }

  lemma SomeRaises(s: System, now: int)
    requires Indexed(s.core)
    ensures Illegal(s, ElapseTo(now)) <==> exists i :: 0 <= i < |s.core.orders| && RaisesOn(s, now, i)
  {
    if SliverDue(s, now) {
      var p :| p in s.core.places && p.due <= now && p.id < |s.core.orders| && MeetsSliver(s.core.orders[p.id], BookFor(s.core, s.market, p.id));
      assert RaisesOn(s, now, p.id);
    }
    if Overdue(s, now) {
      var p :| p in s.core.cancels && p.due <= now && p.id < |s.core.orders| && s.core.orders[p.id].state == Draft;
      assert RaisesOn(s, now, p.id);
    }
  }

  lemma ElapseIllegal(cfg: Config, s: System, now: int)
    requires Bounded(cfg, s) && !s.core.fault
    ensures ProcessDue(s.core, s.market, now).fault <==> Illegal(s, ElapseTo(now))
  {
    ProcessDueProjects(s.core, s.market, now);
    SomeRaises(s, now);
    forall i | 0 <= i < |s.core.orders| { OrderRaises(cfg, s, now, i); }
    if !ProcessDue(s.core, s.market, now).fault {
      forall i | 0 <= i < |s.core.orders| ensures !RaisesOn(s, now, i) {
        assert !LifeOf(ProcessDue(s.core, s.market, now), i).raised;
      }
    }
  }

  lemma SubmitIllegal(c: Core, id: nat, due: int)
    requires id < |c.orders| && !c.fault
    ensures Submit(c, id, due).fault <==> c.orders[id].state != Draft
  {
  }

  lemma StepIllegal(cfg: Config, s: System, step: Step)
    requires Bounded(cfg, s) && !s.core.fault && Fair(s, step) && cfg.maxStakePerWindow >= 0.0
    ensures Next(cfg, s, step).core.fault <==> Illegal(s, step)
  {
    if step.SubmitOrder? {
      if step.id < |s.core.orders| { SubmitIllegal(s.core, step.id, step.due); }
    } else if step.ElapseTo? {
      ElapseIllegal(cfg, s, step.now);
    } else {
      StepBounded(cfg, s, step);
    }
  }

  lemma AnyStepIllegal(cfg: Config, s: System, step: Step)
    requires Bounded(cfg, s) && Fair(s, step) && cfg.maxStakePerWindow >= 0.0
    ensures Next(cfg, s, step).core.fault <==> Illegal(s, step)
  {
    ResumedBounded(cfg, s);
    StepIllegal(cfg, Resumed(s), step);
  }

  /** The k-th step of the run raises exactly when it is illegal. */
  ghost predicate RaisesWhereIllegal(cfg: Config, s: System, steps: seq<Step>, k: nat)
    requires k < |steps|
  {
    Run(cfg, s, steps[..k + 1]).core.fault <==> Illegal(Run(cfg, s, steps[..k]), steps[k])
  }

  lemma FirstIllegal(cfg: Config, s: System, steps: seq<Step>)
    requires steps != [] && (Next(cfg, s, steps[0]).core.fault <==> Illegal(s, steps[0]))
    ensures RaisesWhereIllegal(cfg, s, steps, 0)
  {
    RunPrefix(cfg, s, steps, 0);
  }

  lemma LaterIllegal(cfg: Config, s: System, steps: seq<Step>, k: nat)
    requires 0 < k < |steps| && RaisesWhereIllegal(cfg, Next(cfg, s, steps[0]), steps[1..], k - 1)
    ensures RaisesWhereIllegal(cfg, s, steps, k)
  {
    RunPrefix(cfg, s, steps, k);
    RunPrefix(cfg, s, steps, k - 1);
  }

  /** Every exception of every fair run, at any sizes and whatever was raised before: a step raises if and only if it
      submits an order that is past DRAFT, lets a cancel fall due for one in DRAFT, or lets the place of a taking order
      fall due whose book shows it a sliver. */
  lemma {:induction false} RunRaisesIff(cfg: Config, s: System, steps: seq<Step>)
    requires Bounded(cfg, s) && FairRun(cfg, s, steps) && cfg.maxStakePerWindow >= 0.0
    ensures forall k :: 0 <= k < |steps| ==> RaisesWhereIllegal(cfg, s, steps, k)
    decreases steps
  {
    if steps != [] {
      AnyStepIllegal(cfg, s, steps[0]);
      FirstIllegal(cfg, s, steps);
      StepBounded(cfg, s, steps[0]);
      RunRaisesIff(cfg, Next(cfg, s, steps[0]), steps[1..]);
      forall k | 0 < k < |steps| ensures RaisesWhereIllegal(cfg, s, steps, k) { LaterIllegal(cfg, s, steps, k); }
    }
  }
}
