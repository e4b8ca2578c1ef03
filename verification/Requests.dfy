/** What becomes of requests, told outright: what a submission, a cancel request and a fill event do to the order they
    name, which requests fall due, and what passing time does to an order. */
module Requests {
  import opened Grid
  import opened Orders
  import opened Books
  import opened Exchange
  import opened OneOrder
  import opened Joining
  import opened Projection
  import opened NonInterference
  import opened Risk
  import opened Trading
  import opened TradingInvariant
  import opened TradingOrders

  // ---- the order manager

  /** A draft is submitted once: it is then acknowledged, known by its exchange id and on its way to the exchange, where
      it is due when its round trip is over. Any other order raises and stays as it is. */
  lemma SubmitMeans(c: Core, id: nat, due: int)
    requires id < |c.orders| && !c.fault
    ensures c.orders[id].state == Draft ==>
              Submit(c, id, due) == c.(orders := c.orders[id := c.orders[id].(state := Acked)],
                                       places := c.places + [Pending(due, id)], acked := c.acked + {id})
    ensures c.orders[id].state != Draft ==> Submit(c, id, due) == c.(fault := true)
  {
    if c.orders[id].state == Draft {
      assert c.orders[id := c.orders[id].(state := Signed)][id := c.orders[id].(state := Sent)][id := c.orders[id].(state := Acked)]
             == c.orders[id := c.orders[id].(state := Acked)];
    }
  }

  /** A fill event is delivered to the one order it names, by its exchange id once that is known or by its client id, and
      to no other; it is reported with that order's session if the order takes it. One for an unknown order changes
      nothing. */
  lemma FillReaches(c: Core, f: Fill, id: nat)
    requires !c.fault && id < |c.orders|
    ensures f.order == ClientRef(id) || (f.order == ExchangeRef(id) && id in c.acked) ==>
              var d, r := Deliver(c.orders[id], f), ApplyFill(c, f);
              && r == c.(orders := c.orders[id := d.order], journal := r.journal, fault := d.raised)
              && r.journal == c.journal + (if d.applied then [Posting(c.orders[id].slug, id, f)] else [])
    ensures f.order == ExchangeRef(id) && id !in c.acked ==> ApplyFill(c, f) == c
  {
  }

  lemma UnknownFill(c: Core, f: Fill)
    requires forall id :: 0 <= id < |c.orders| ==> f.order != ClientRef(id) && f.order != ExchangeRef(id)
    ensures ApplyFill(c, f) == c
  {
  }

  // ---- due times

  /** What is due goes, in the order it was recorded, and what is not stays. */
  lemma {:induction false} DueMeans(ps: seq<Pending>, now: int, due: int)
    ensures DueAt(DueBy(ps, now), due) == if due <= now then DueAt(ps, due) else []
    ensures DueAt(DueAfter(ps, now), due) == if due <= now then [] else DueAt(ps, due)
  {
    if ps != [] { DueMeans(ps[1..], now, due); }
  }

  predicate AnyBy(ts: seq<int>, now: int) {
    exists t <- ts :: t <= now
  }

  lemma {:induction false} TimesMean(ts: seq<int>, now: int)
    ensures TimesBy(ts, now) != [] <==> AnyBy(ts, now)
    ensures !AnyBy(TimesAfter(ts, now), now)
  {
    if ts != [] {
      TimesMean(ts[1..], now);
      assert ts[0] in ts && forall t <- ts :: t == ts[0] || t in ts[1..];
      assert forall t <- ts[1..] :: t in ts;
    }
  }

  lemma {:induction false} TimesSplit(ts: seq<int>, now: int)
    ensures multiset(TimesBy(ts, now)) + multiset(TimesAfter(ts, now)) == multiset(ts)
  {
    if ts != [] {
      TimesSplit(ts[1..], now);
      assert ts == [ts[0]] + ts[1..];
    }
  }

  // ---- cancels

  /** An order once a cancel has reached it: off the exchange, and CANCELED unless it was terminal already. */
  function Canceling(l: Life): Life {
    l.(rest := None, places := [], order := l.order.(state := if l.order.Terminal() then l.order.state else Canceled))
  }

  lemma {:induction false} CancelsMean(l: Life, dues: seq<int>)
    requires Coupled(l) && l.order.state != Draft
    ensures DropAll(l, dues) == if dues == [] then l else Canceling(l)
    decreases dues
  {
    if dues != [] {
      assert Drop(l) == Canceling(l);
      DropCoupled(l);
      CancelsMean(Drop(l), dues[1..]);
    }
  }

  // ---- passing time

  /** What the arrival of an acknowledged order comes to. An unusable book makes it expire with nothing. A taker, and a
      maker priced through the touch, trades at once as far as its limit reaches among the 64 best levels, all or nothing
      if it is FOK. Any other order rests with its whole size, behind what is visible at its price. */
  ghost predicate Arrived(l: Life, book: Option<Book>, fee: Option<real>, due: int, r: Life) {
    var o := l.order;
    if book.None? || book.value.dirty then
      r == l.(order := o.(state := Expired))
    else if o.tif in {FAK, FOK} || Touches(o, book.value) then
      && fee.Some? && SameTracking(l, r) && !r.raised
      && r.order.filled == (if o.tif == FOK && InReach(o, book.value) < o.size then 0.0 else Min(o.size, InReach(o, book.value)))
      && r.order.state == (if InReach(o, book.value) >= o.size then Filled else Expired)
      && r.fills == l.fills + TakerExecs(o.side, fee.value, TakerQuotes(o, book.value).quotes)
    else
      r == l.(rest := Some(Rest(l.id, SizeAt(if o.side == Buy then book.value.bids else book.value.asks, o.price), due, o.size)))
  }

  /** Some opposite level is at or through the order's price. */
  ghost predicate Touches(o: Order, b: Book) {
    if o.side == Buy then exists lv <- b.asks :: lv.price <= o.price else exists lv <- b.bids :: lv.price >= o.price
  }

  lemma LandMeans(l: Life, book: Option<Book>, fee: Option<real>, due: int)
    requires Sound(l) && l.order.state == Acked && l.rest.None? && Usable(book, fee)
    ensures Arrived(l, book, fee, due, Land(l, book, fee, due))
  {
    if book.Some? && !book.value.dirty {
      CrossesMeans(l.order, book.value);
      assert Crosses(l.order, book.value) <==> Touches(l.order, book.value);
      TakeSound(l, fee, book.value);
      TakerGets(l, fee, book.value);
    }
  }

  /** What passing time does to an order. Its place, if due, arrives; its cancels that are due then take it off the
      exchange, CANCELED unless it is terminal; for a draft they raise. Without either nothing happens to it. */
  lemma ElapseMeans(l: Life, book: Option<Book>, fee: Option<real>, now: int) returns (a: Life)
    requires Coupled(l) && Usable(book, fee) && (AnyBy(l.cancels, now) ==> l.order.state != Draft)
    ensures AnyBy(l.places, now) ==> l.places != [] && Arrived(l.(places := []), book, fee, l.places[0], a)
    ensures !AnyBy(l.places, now) ==> a == l
    ensures var r := Elapse(l, book, fee, now);
            && multiset(r.cancels) <= multiset(l.cancels) && !AnyBy(r.cancels, now)
            && r == (if AnyBy(l.cancels, now) then Canceling(a) else a).(cancels := r.cancels)
  {
    a := PlacesDue(l, book, fee, now);
    TimesMean(l.places, now);
    TimesMean(l.cancels, now);
    TimesSplit(l.cancels, now);
    OnePlace(l, book, fee, now);
    PlacesDueCoupled(l, book, fee, now);
    SortTimesEmpty(TimesBy(l.cancels, now));
    var l1 := a.(cancels := TimesAfter(a.cancels, now));
    if l.order.state == Draft {
      assert SortTimes(TimesBy(l.cancels, now)) == [];
    } else {
      CancelsMean(l1, SortTimes(TimesBy(l.cancels, now)));
    }
  }

  lemma OnePlace(l: Life, book: Option<Book>, fee: Option<real>, now: int)
    requires Coupled(l) && Usable(book, fee)
    ensures AnyBy(l.places, now) ==> l.places != [] && Arrived(l.(places := []), book, fee, l.places[0], PlacesDue(l, book, fee, now))
    ensures !AnyBy(l.places, now) ==> PlacesDue(l, book, fee, now) == l
    ensures PlacesDue(l, book, fee, now).cancels == l.cancels
    ensures l.order.state != Draft ==> PlacesDue(l, book, fee, now).order.state != Draft
  {
    if l.places != [] {
      var t := l.places[0];
      assert l.places == [t] && t in l.places;
      assert TimesBy([t], now) == if t <= now then [t] else [];
      if t <= now {
        var l0 := l.(places := []);
        LandMeans(l0, book, fee, t);
        assert TimesAfter([t], now) == [];
        assert SortTimes([t]) == [t];
        assert LandAll(l0, book, fee, [t]) == Land(l0, book, fee, t);
      } else {
        assert TimesAfter([t], now) == [t] && SortTimes(TimesBy([t], now)) == [];
        assert l.(places := [t]) == l;
      }
    }
  }

  /** The same of every order of the trading system. */
  lemma TimeMeans(cfg: Config, s: System, now: int, i: nat) returns (a: Life)
    requires Inv(cfg, s) && cfg.maxStakePerWindow >= 0.0 && !Overdue(s, now) && i < |s.core.orders|
    ensures var l, book, fee := LifeOf(s.core, i), BookFor(s.core, s.market, i), FeeFor(s.core, s.market, i);
            && (AnyBy(l.places, now) ==> l.places != [] && Arrived(l.(places := []), book, fee, l.places[0], a))
            && (!AnyBy(l.places, now) ==> a == l)
            && i < |Next(cfg, s, ElapseTo(now)).core.orders|
            && var r := LifeOf(Next(cfg, s, ElapseTo(now)).core, i);
               r == (if AnyBy(l.cancels, now) then Canceling(a) else a).(cancels := r.cancels)
  {
    StepInv(cfg, s, ElapseTo(now));
    StepLife(cfg, s, ElapseTo(now), i);
    MarketFor(cfg, s, i);
    ElapseCoupled(LifeOf(s.core, i), BookFor(s.core, s.market, i), FeeFor(s.core, s.market, i), now);
    TimesMean(LifeOf(s.core, i).cancels, now);
    a := ElapseMeans(LifeOf(s.core, i), BookFor(s.core, s.market, i), FeeFor(s.core, s.market, i), now);
  }
}
