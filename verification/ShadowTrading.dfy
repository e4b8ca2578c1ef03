/** The objects of exec/order_manager.py, sim/shadow_exchange.py and the ledger they report to: every method is
    proved to do to the object state what its function in Exchange does to the abstract state. */
module ShadowTrading {
  import opened Grid
  import opened Orders
  import opened Books
  import opened Matching
  import opened Exchange
  import opened OneOrder
  import opened Executions
  import opened Ledger
  import opened Risk

  /** One trading order, shared by the order manager and the exchange. */
  class ManagedOrder {
    const id: nat
    const slug: string
    const token: string
    const side: Side
    const price: real
    const size: real
    const tif: TimeInForce
    var state: OrderState
    var filled: real
    var feeShares: real
    var feeUsdc: real
    var cancelRequested: bool
    var seen: set<TradeId>

    function Value(): Order
      reads this
    {
      Order(slug, token, side, price, size, tif, state, filled, feeShares, feeUsdc, cancelRequested, seen)
    }

    constructor (id: nat, slug: string, token: string, side: Side, price: real, size: real, tif: TimeInForce)
      ensures this.id == id && Value() == NewOrder(slug, token, side, price, size, tif)
    {
      this.id, this.slug, this.token, this.side, this.price, this.size, this.tif := id, slug, token, side, price, size, tif;
      state, filled, feeShares, feeUsdc, cancelRequested, seen := Draft, 0.0, 0.0, 0.0, false, {};
    }

    /** raised stands for IllegalTransition. */
    method Transition(next: OrderState) returns (raised: bool)
      modifies this`state
      ensures raised == !old(Value()).CanBecome(next)
      ensures Value() == if raised then old(Value()) else old(Value()).(state := next)
    {
      raised := next !in Successors(state);
      if !raised {
        state := next;
      }
    }

    /** Signing costs nothing in the shadow exchange; only a draft can be signed and sent. */
    method SignAndSend() returns (raised: bool)
      modifies this`state
      ensures raised == (old(state) != Draft)
      ensures Value() == if raised then old(Value()) else old(Value()).(state := Sent)
    {
      raised := Transition(Signed);
      if !raised {
        raised := Transition(Sent);
      }
    }

    /** The order's part of OrderManager.apply_fill: raised, or else whether accounting is to be told. */
    method TakeFill(f: Fill) returns (applied: bool, raised: bool)
      modifies this`state, this`filled, this`feeShares, this`feeUsdc, this`seen
      ensures Delivery(Value(), applied, raised) == Deliver(old(Value()), f)
    {
      if f.tradeId != Unidentified && f.tradeId in seen {
        return false, false;
      }
      if f.tradeId != Unidentified {
        seen := seen + {f.tradeId};
      }
      var late := state == Canceled;
      filled := Min(filled + f.size, size);
      feeShares := feeShares + f.feeShares;
      feeUsdc := feeUsdc + f.feeUsdc;
      raised := false;
      if late {
      } else if filled >= size - SIZE_TOL {
        raised := Transition(Filled);
      } else if state in {Sent, Acked, Partial} {
        raised := Transition(Partial);
      }
      applied := !raised;
    }
  }

  /** The Ledger of accounting/pnl.py. */
  class PnlLedger {
    var sessions: map<string, SessionBook>
    var dailyRealized: map<int, real>

    function Value(): Accounts
      reads this
    {
      Accounts(sessions, dailyRealized)
    }

    constructor ()
      ensures Value() == Accounts(map[], map[])
    {
      sessions, dailyRealized := map[], map[];
    }

    method ApplyFill(slug: string, f: Fill)
      modifies this`sessions
      ensures Value() == old(Value()).ApplyFill(slug, f)
    {
      var book := if slug in sessions then sessions[slug] else NEW_BOOK;
      sessions := sessions[slug := ApplyToBook(book, f)];
    }

    /** The loop of SessionBook.settle: winners redeem at one dollar, losers at nothing. */
    method Redeem(positions: seq<Position>, winner: string) returns (total: real)
      ensures total == SettleTotal(positions, winner)
    {
      total := 0.0;
      var k := 0;
      while k < |positions|
        invariant 0 <= k <= |positions|
        invariant total + SettleTotal(positions[k..], winner) == SettleTotal(positions, winner)
      {
        var p := positions[k];
        assert positions[k..][0] == p && positions[k..][1..] == positions[k + 1..];
        var redemption := if p.token == winner then p.shares else 0.0;
        total := total + p.cash + Max(redemption, 0.0);
        k := k + 1;
      }
    }

    /** Settlement touches no position, so whatever fills the books balance with, they still balance with. */
    method SettleSession(meta: Meta, outcome: Outcome, ghost journal: seq<Posting>) returns (pnl: real)
      requires Balanced(Value(), journal)
      modifies this
      ensures Value() == old(Value()).Settle(meta, outcome)
      ensures Balanced(Value(), journal)
      ensures pnl == NetCash(journal, meta.slug) + Max(NetShares(journal, meta.slug, meta.TokenFor(outcome)), 0.0)
    {
      var book := if meta.slug in sessions then sessions[meta.slug] else NEW_BOOK;
      assert book == old(Value()).BookFor(meta.slug);
      pnl := Redeem(book.positions, meta.TokenFor(outcome));
      var day := DayOf(meta.windowStart);
      var before := if day in dailyRealized then dailyRealized[day] else 0.0;
      sessions := sessions[meta.slug := book.(realized := Some(pnl))];
      dailyRealized := dailyRealized[day := before + pnl];
      RealizedFromFills(journal, meta.slug, meta.TokenFor(outcome));
    }
  }

  lemma FillsLeaveTheRest(c: Core, f: Fill, ps: seq<Pending>, cs: seq<Pending>, rs: seq<Rest>, n: nat)
    ensures ApplyFill(c.(places := ps, cancels := cs, resting := rs, tradeSeq := n), f)
            == ApplyFill(c, f).(places := ps, cancels := cs, resting := rs, tradeSeq := n)
  {
  }

  /** Only a draft can be submitted; it is then pending and acknowledged at once. */
  lemma SubmitIs(c: Core, id: nat, due: int)
    requires id < |c.orders|
    ensures Submit(c, id, due)
            == if c.orders[id].state != Draft then c.(fault := true)
               else if c.fault then c.(orders := c.orders[id := c.orders[id].(state := Signed)])
               else c.(orders := c.orders[id := c.orders[id].(state := Acked)],
                       places := c.places + [Pending(due, id)], acked := c.acked + {id})
  {
  }

  /** Which cancels cancel_all asks for depends on the orders' slugs alone. */
  lemma {:induction false} SameSlugs(rs: seq<Rest>, ps: seq<Pending>, os: seq<Order>, xs: seq<Order>, slug: string, now: int,
                                     lag: nat -> nat)
    requires KnownIds(ps, |os|) && forall r <- rs :: r.id < |os|
    requires |xs| == |os| && forall k :: 0 <= k < |os| ==> xs[k].slug == os[k].slug
    ensures CancelResting(rs, xs, slug, now, lag) == CancelResting(rs, os, slug, now, lag)
    ensures CancelPlaces(ps, xs, slug, now, lag) == CancelPlaces(ps, os, slug, now, lag)
    decreases |rs| + |ps|
  {
    if rs != [] {
      assert rs[0] in rs && forall r <- rs[1..] :: r in rs;
      SameSlugs(rs[1..], ps, os, xs, slug, now, lag);
    } else if ps != [] {
      assert ps[0] in ps && forall p <- ps[1..] :: p in ps;
      SameSlugs(rs, ps[1..], os, xs, slug, now, lag);
    }
  }

  class OrderManager {
    const ledger: PnlLedger
    var orders: seq<ManagedOrder>
    var byExchangeId: map<nat, ManagedOrder>
    ghost var journal: seq<Posting>

    /** Orders are filed under their client ids, so they are distinct objects; the ledger has seen exactly the
        journal. */
    ghost predicate Valid()
      reads this, ledger
    {
      && (forall i :: 0 <= i < |orders| ==> orders[i].id == i)
      && (forall n <- byExchangeId :: n < |orders| && byExchangeId[n] == orders[n])
      && Balanced(ledger.Value(), journal)
    }

    ghost predicate Holds(o: ManagedOrder)
      reads this
    {
      o.id < |orders| && orders[o.id] == o
    }

    ghost function Values(): (os: seq<Order>)
      reads this, orders
      ensures |os| == |orders| && forall i :: 0 <= i < |os| ==> os[i] == orders[i].Value()
    {
      seq(|orders|, i requires 0 <= i < |orders| reads this, orders => orders[i].Value())
    }

    constructor (ledger: PnlLedger)
      requires ledger.Value() == Accounts(map[], map[])
      ensures Valid() && this.ledger == ledger && orders == [] && byExchangeId == map[] && journal == []
    {
      this.ledger := ledger;
      orders, byExchangeId, journal := [], map[], [];
    }

    method Draft(slug: string, token: string, side: Side, price: real, size: real, tif: TimeInForce)
      returns (o: ManagedOrder)
      requires Valid()
      modifies this`orders
      ensures Valid() && fresh(o) && Holds(o) && orders == old(orders) + [o]
      ensures Values() == old(Values()) + [NewOrder(slug, token, side, price, size, tif)]
    {
      o := new ManagedOrder(|orders|, slug, token, side, price, size, tif);
      orders := orders + [o];
    }

    /** What one order's change does to the list of order values. */
    twostate lemma OneChanged(o: ManagedOrder)
      requires orders == old(orders) && Holds(o)
      requires forall i :: 0 <= i < |orders| && i != o.id ==> orders[i].Value() == old(orders[i].Value())
      ensures Values() == old(Values())[o.id := o.Value()]
    {
    }

    method ConfirmCanceled(o: ManagedOrder) returns (raised: bool)
      requires Valid() && Holds(o)
      modifies o`state
      ensures Valid()
      ensures raised == (!old(o.Value()).Terminal() && !old(o.Value()).CanBecome(Canceled))
      ensures Values() == old(Values())[o.id := if raised || old(o.Value()).Terminal() then old(o.Value())
                                                else old(o.Value()).(state := Canceled)]
    {
      raised := false;
      if o.state !in TERMINAL_STATES {
        raised := o.Transition(Canceled);
      }
      OneChanged(o);
    }

    method ExpireUnfilled(o: ManagedOrder) returns (raised: bool)
      requires Valid() && Holds(o)
      modifies o`state
      ensures Valid()
      ensures raised == (!old(o.Value()).Terminal() && !old(o.Value()).CanBecome(Expired))
      ensures Values() == old(Values())[o.id := if raised || old(o.Value()).Terminal() then old(o.Value())
                                                else old(o.Value()).(state := Expired)]
    {
      raised := false;
      if o.state !in TERMINAL_STATES {
        raised := o.Transition(Expired);
      }
      OneChanged(o);
    }

    /** The part of the exchange's state that order management can see. */
    ghost function Share(): Core
      reads this, orders
    {
      Core(Values(), byExchangeId.Keys, [], [], [], 0, journal, false)
    }

    /** on_fill_applied: accounting hears of the fill under the order's own slug. */
    method Report(o: ManagedOrder, f: Fill)
      requires Balanced(ledger.Value(), journal)
      modifies ledger`sessions, this`journal
      ensures Balanced(ledger.Value(), journal)
      ensures journal == old(journal) + [Posting(o.slug, o.id, f)]
    {
      PostAllBalanced(ledger.Value(), journal, [Posting(o.slug, o.id, f)]);
      ledger.ApplyFill(o.slug, f);
      journal := journal + [Posting(o.slug, o.id, f)];
    }

    function Find(r: OrderRef): (o: Option<ManagedOrder>)
      requires Valid()
      reads this, ledger
      ensures o.Some? ==> Holds(o.value)
      ensures Resolve(Share(), r) == if o.Some? then Some(o.value.id) else None
    {
      match r
      case ExchangeRef(n) => if n in byExchangeId then Some(byExchangeId[n]) else None
      case ClientRef(n) => if n < |orders| then Some(orders[n]) else None
    }

    /** Updates the order, and unless that raised tells accounting. */
    method ApplyFill(f: Fill) returns (raised: bool)
      requires Valid()
      modifies orders, ledger`sessions, this`journal
      ensures Valid()
      ensures Share().(fault := raised) == Exchange.ApplyFill(old(Share()), f)
    {
      var found := Find(f.order);
      if found.None? {
        return false;
      }
      var o := found.value;
      var applied;
      applied, raised := o.TakeFill(f);
      OneChanged(o);
      if applied {
        Report(o, f);
      }
    }

    /** Submission through the shadow exchange, which acknowledges at once. */
    method Submit(o: ManagedOrder, adapter: ShadowExchange, due: int) returns (raised: bool)
      requires adapter.om == this && adapter.Valid() && Holds(o)
      modifies o`state, this`byExchangeId, adapter`pendingPlaces
      ensures adapter.Valid()
      ensures adapter.Value(raised) == Exchange.Submit(old(adapter.Value(false)), o.id, due)
    {
      SubmitIs(adapter.Value(false), o.id, due);
      raised := o.SignAndSend();
      if !raised {
        Acknowledge(o, adapter, due);
      }
      OneChanged(o);
    }

    /** The adapter takes a sent order, which gets its exchange id and is ACKED. */
    method Acknowledge(o: ManagedOrder, adapter: ShadowExchange, due: int)
      requires adapter.om == this && adapter.Valid() && Holds(o) && o.state == Sent
      modifies o`state, this`byExchangeId, adapter`pendingPlaces
      ensures adapter.Valid() && o.Value() == old(o.Value()).(state := Acked)
      ensures byExchangeId == old(byExchangeId)[o.id := o]
      ensures adapter.pendingPlaces == old(adapter.pendingPlaces) + [Pending(due, o.id)]
    {
      adapter.Place(o, due);
      byExchangeId := byExchangeId[o.id := o];
      var raised := o.Transition(Acked);
    }

    /** Flags every open order of a session. */
    method FlagOpenOrders(slug: string)
      requires Valid()
      modifies orders
      ensures Valid() && Values() == FlagAll(old(Values()), slug)
    {
      var k := 0;
      while k < |orders|
        invariant 0 <= k <= |orders| && Valid()
        invariant forall j :: 0 <= j < k ==> orders[j].Value() == FlagOpen(old(orders[j].Value()), slug)
        invariant forall j :: k <= j < |orders| ==> orders[j].Value() == old(orders[j].Value())
      {
        var o := orders[k];
        if o.slug == slug && o.state !in TERMINAL_STATES {
          o.cancelRequested := true;
        }
        k := k + 1;
      }
      assert Values() == FlagAll(old(Values()), slug);
    }

    method CancelAllForSession(adapter: ShadowExchange, slug: string, now: int, lag: nat -> nat)
      requires adapter.om == this && adapter.Valid()
      modifies orders, adapter`pendingCancels
      ensures adapter.Valid()
      ensures adapter.Value(false) == Exchange.CancelAll(old(adapter.Value(false)), slug, now, lag)
    {
      ghost var before := adapter.Value(false);
      FlagOpenOrders(slug);
      SameSlugs(adapter.resting, adapter.pendingPlaces, before.orders, Values(), slug, now, lag);
      adapter.CancelAll(slug, now, lag);
    }

    method RequestCancel(o: ManagedOrder, adapter: ShadowExchange, due: int)
      requires adapter.om == this && adapter.Valid() && Holds(o)
      modifies o`cancelRequested, adapter`pendingCancels
      ensures adapter.Valid()
      ensures adapter.Value(false) == Exchange.RequestCancel(old(adapter.Value(false)), o.id, due)
    {
      if o.state in TERMINAL_STATES {
        OneChanged(o);
        return;
      }
      o.cancelRequested := true;
      OneChanged(o);
      adapter.Cancel(o, due);
    }
  }

  class ShadowExchange {
    const om: OrderManager
    var pendingPlaces: seq<Pending>
    var pendingCancels: seq<Pending>
    var resting: seq<Rest>
    var tradeSeq: nat

    ghost predicate Valid()
      reads this, om, om.ledger
    {
      && om.Valid()
      && KnownIds(pendingPlaces, |om.orders|)
      && KnownIds(pendingCancels, |om.orders|)
      && forall r <- resting :: r.id < |om.orders|
    }

    /** The abstract state; raised says whether the last call ended in IllegalTransition. */
    ghost function Value(raised: bool): (c: Core)
      reads this, om, om.orders
    {
      Core(om.Values(), om.byExchangeId.Keys, pendingPlaces, pendingCancels, resting, tradeSeq, om.journal, raised)
    }

    constructor (om: OrderManager)
      requires om.Valid() && om.orders == [] && om.byExchangeId == map[] && om.journal == []
      ensures Valid() && this.om == om && Value(false) == EMPTY
    {
      this.om := om;
      pendingPlaces, pendingCancels, resting, tradeSeq := [], [], [], 0;
    }

    method Place(o: ManagedOrder, due: int)
      requires Valid() && om.Holds(o)
      modifies this`pendingPlaces
      ensures Valid() && pendingPlaces == old(pendingPlaces) + [Pending(due, o.id)]
    {
      pendingPlaces := pendingPlaces + [Pending(due, o.id)];
    }

    method Cancel(o: ManagedOrder, due: int)
      requires Valid() && om.Holds(o)
      modifies this`pendingCancels
      ensures Valid() && pendingCancels == old(pendingCancels) + [Pending(due, o.id)]
    {
      pendingCancels := pendingCancels + [Pending(due, o.id)];
    }

    /** Asks for the cancel of every resting, then of every pending order of a session; lag(n) is the round trip
        sampled for the cancel of order n. */
    method CancelAll(slug: string, now: int, lag: nat -> nat)
      requires Valid()
      modifies this`pendingCancels
      ensures Valid()
      ensures pendingCancels == old(pendingCancels) + CancelResting(resting, om.Values(), slug, now, lag)
                                                    + CancelPlaces(pendingPlaces, om.Values(), slug, now, lag)
    {
      CancelRestingOf(slug, now, lag);
      CancelPlacesOf(slug, now, lag);
    }

    method CancelRestingOf(slug: string, now: int, lag: nat -> nat)
      requires Valid()
      modifies this`pendingCancels
      ensures Valid()
      ensures pendingCancels == old(pendingCancels) + CancelResting(resting, om.Values(), slug, now, lag)
    {
      ghost var os := om.Values();
      ghost var target := pendingCancels + CancelResting(resting, os, slug, now, lag);
      var k := 0;
      while k < |resting|
        invariant 0 <= k <= |resting| && Valid()
        invariant om.Values() == os && RestKnown(resting[k..], |os|)
        invariant pendingCancels + CancelResting(resting[k..], os, slug, now, lag) == target
      {
        var o := om.orders[resting[k].id];
        RestingNext(resting, os, k, slug, now, lag);
        ghost var before := pendingCancels;
        CancelIn(o, slug, now + lag(o.id));
        AskedNext(before, pendingCancels, resting, os, k, slug, now, lag);
        k := k + 1;
      }
    }

    /** Asks for the cancel of an order if it is of the session. */
    method CancelIn(o: ManagedOrder, slug: string, due: int)
      requires Valid() && om.Holds(o)
      modifies this`pendingCancels
      ensures Valid()
      ensures pendingCancels == old(pendingCancels) + if o.slug == slug then [Pending(due, o.id)] else []
    {
      if o.slug == slug {
        Cancel(o, due);
      }
    }

    method CancelPlacesOf(slug: string, now: int, lag: nat -> nat)
      requires Valid()
      modifies this`pendingCancels
      ensures Valid()
      ensures pendingCancels == old(pendingCancels) + CancelPlaces(pendingPlaces, om.Values(), slug, now, lag)
    {
      ghost var os := om.Values();
      ghost var target := pendingCancels + CancelPlaces(pendingPlaces, os, slug, now, lag);
      var k := 0;
      while k < |pendingPlaces|
        invariant 0 <= k <= |pendingPlaces| && Valid()
        invariant KnownIds(pendingPlaces[k..], |os|)
        invariant pendingCancels + CancelPlaces(pendingPlaces[k..], os, slug, now, lag) == target
      {
        var p := pendingPlaces[k];
        assert pendingPlaces[k..][0] == p && pendingPlaces[k..][1..] == pendingPlaces[k + 1..];
        assert p in pendingPlaces[k..] && forall x <- pendingPlaces[k + 1..] :: x in pendingPlaces[k..];
        if om.orders[p.id].slug == slug {
          Cancel(om.orders[p.id], now + lag(p.id));
        }
        k := k + 1;
      }
    }

    method Expire(o: ManagedOrder) returns (raised: bool)
      requires Valid() && om.Holds(o)
      modifies o`state
      ensures Valid() && Value(raised) == Exchange.ExpireUnfilled(old(Value(false)), o.id)
    {
      raised := om.ExpireUnfilled(o);
    }

    method BuildFill(rate: real, o: ManagedOrder, price: real, size: real, taker: bool) returns (f: Fill)
      modifies this`tradeSeq
      ensures tradeSeq == old(tradeSeq) + 1 && f == MakeFill(o.Value(), o.id, rate, price, size, taker, tradeSeq)
      ensures f == PostingOf(o.Value(), o.id, Executed(o.side, rate, price, size, taker), tradeSeq).fill
    {
      var perShare := FeePerShare(rate, price);
      var feeShares, feeUsdc := 0.0, 0.0;
      if taker {
        if o.side == Buy {
          feeShares := Product(perShare, size);
        } else {
          feeUsdc := Product(perShare, size);
        }
      }
      tradeSeq := tradeSeq + 1;
      f := Fill(ExchangeRef(o.id), o.token, o.side, price, size, feeShares, feeUsdc, Shadow(tradeSeq));
    }

    method Deliver(f: Fill) returns (raised: bool)
      requires Valid()
      modifies om.orders, om.ledger`sessions, om`journal
      ensures Valid() && Value(raised) == Exchange.ApplyFill(old(Value(false)), f)
    {
      FillsLeaveTheRest(om.Share(), f, pendingPlaces, pendingCancels, resting, tradeSeq);
      raised := om.ApplyFill(f);
    }

    method EmitPriced(rate: real, o: ManagedOrder, price: real, size: real, taker: bool) returns (raised: bool)
      requires Valid() && om.Holds(o)
      modifies om.orders, om.ledger`sessions, om`journal, this`tradeSeq
      ensures Valid()
      ensures Value(raised)
              == Exchange.ApplyFill(old(Value(false)).(tradeSeq := old(tradeSeq) + 1),
                                    MakeFill(old(o.Value()), o.id, rate, price, size, taker, old(tradeSeq) + 1))
    {
      ghost var c := Value(false);
      var f := BuildFill(rate, o, price, size, taker);
      assert Value(false) == c.(tradeSeq := c.tradeSeq + 1);
      raised := Deliver(f);
    }

    method EmitFill(m: Market, o: ManagedOrder, price: real, size: real, taker: bool) returns (raised: bool)
      requires Valid() && om.Holds(o)
      modifies om.orders, om.ledger`sessions, om`journal, this`tradeSeq
      ensures Valid() && Value(raised) == Exchange.EmitFill(old(Value(false)), m, o.id, price, size, taker)
      ensures old(Ready(Value(false), m, o.id)) && !raised ==>
                om.journal == Emitted(old(Value(false)), o.id, m.FeeOf(o.token).value, price, size, taker)
    {
      ghost var c := Value(false);
      raised := EmitOrExpire(m, o, price, size, taker);
      if Ready(c, m, o.id) && !raised { EmitPosts(c, m, o.id, m.FeeOf(o.token).value, price, size, taker); }
    }

    /** Without a fee model no fill is made and the order expires. */
    method EmitOrExpire(m: Market, o: ManagedOrder, price: real, size: real, taker: bool) returns (raised: bool)
      requires Valid() && om.Holds(o)
      modifies om.orders, om.ledger`sessions, om`journal, this`tradeSeq
      ensures Valid() && Value(raised) == Exchange.EmitFill(old(Value(false)), m, o.id, price, size, taker)
    {
      var rate := m.FeeOf(o.token);
      if rate.None? {
        raised := Expire(o);
      } else {
        raised := EmitPriced(rate.value, o, price, size, taker);
      }
    }

    method EmitFills(m: Market, o: ManagedOrder, quotes: seq<Quote>) returns (raised: bool)
      requires Valid() && om.Holds(o)
      modifies om.orders, om.ledger`sessions, om`journal, this`tradeSeq
      ensures Valid() && Value(raised) == Exchange.EmitAll(old(Value(false)), m, o.id, quotes)
      ensures old(Ready(Value(false), m, o.id)) && !raised ==>
                om.journal == old(om.journal) + Postings(old(o.Value()), o.id, m.FeeOf(o.token).value, quotes, old(tradeSeq))
    {
      ghost var c := Value(false);
      ghost var target := Exchange.EmitAll(c, m, o.id, quotes);
      raised := false;
      var k := 0;
      while k < |quotes| && !raised
        invariant 0 <= k <= |quotes| && Valid() && om.Holds(o)
        invariant Exchange.EmitAll(Value(raised), m, o.id, quotes[k..]) == target
      {
        assert quotes[k..][0] == quotes[k] && quotes[k..][1..] == quotes[k + 1..];
        raised := EmitFill(m, o, quotes[k].price, quotes[k].size, true);
        k := k + 1;
      }
      if Ready(c, m, o.id) && !raised { EmitAllPosts(c, m, o.id, m.FeeOf(o.token).value, quotes); }
    }

    method TakerFill(m: Market, o: ManagedOrder, book: Book) returns (raised: bool)
      requires Valid() && om.Holds(o)
      modifies om.orders, om.ledger`sessions, om`journal, this`tradeSeq
      ensures Valid() && Value(raised) == Exchange.TakerFill(old(Value(false)), m, o.id, book)
      ensures old(Ready(Value(false), m, o.id)) && !raised ==>
                om.journal == old(om.journal) + Postings(old(o.Value()), o.id, m.FeeOf(o.token).value,
                                                         TakerQuotes(old(o.Value()), book).quotes, old(tradeSeq))
    {
      ghost var c := Value(false);
      var levels := TopLevels(Opposite(o.side), book.Of(Opposite(o.side)), 64);
      var fills, remaining := WalkLevels(o.side, o.price, levels, o.size);
      if o.tif == FOK && remaining > SIZE_TOL {
        fills := [];
      }
      if fills == [] {
        raised := Expire(o);
      } else {
        raised := EmitFills(m, o, fills);
        if !raised && remaining > SIZE_TOL {
          raised := Expire(o);
        }
      }
      if Ready(c, m, o.id) && !raised { TakerPosts(c, m, o.id, book, m.FeeOf(o.token).value); }
    }

    method RestMaker(m: Market, o: ManagedOrder, book: Book, arrival: int) returns (raised: bool)
      requires Valid() && om.Holds(o)
      modifies om.orders, om.ledger`sessions, om`journal, this`tradeSeq, this`resting
      ensures Valid() && Value(raised) == Exchange.RestMaker(old(Value(false)), m, o.id, book, arrival)
    {
      if Crosses(o.Value(), book) {
        raised := TakerFill(m, o, book);
      } else {
        var levels := book.Of(o.side);
        var ahead, k := 0.0, 0;
        while k < |levels|
          invariant 0 <= k <= |levels| && ahead == 0.0
          invariant SizeAt(levels[k..], o.price) == SizeAt(levels, o.price)
        {
          assert levels[k..][0] == levels[k] && levels[k..][1..] == levels[k + 1..];
          if Abs(levels[k].price - o.price) < PRICE_TOL {
            ahead := levels[k].size;
            break;
          }
          k := k + 1;
        }
        PutRestIds(resting, Rest(o.id, ahead, arrival, o.size));
        resting := PutRest(resting, Rest(o.id, ahead, arrival, o.size));
        raised := false;
      }
    }

    method Arrive(m: Market, p: Pending) returns (raised: bool)
      requires Valid() && p.id < |om.orders|
      modifies om.orders, om.ledger`sessions, om`journal, this`tradeSeq, this`resting
      ensures Valid() && Value(raised) == Exchange.Arrive(old(Value(false)), m, p)
    {
      var o := om.orders[p.id];
      var book := m.BookOf(o.token);
      if book.None? || book.value.dirty {
        raised := Expire(o);
      } else if o.tif in {FAK, FOK} {
        raised := TakerFill(m, o, book.value);
      } else {
        raised := RestMaker(m, o, book.value, p.due);
      }
    }

    method ArriveCancel(o: ManagedOrder) returns (raised: bool)
      requires Valid() && om.Holds(o)
      modifies o`state, this`resting, this`pendingPlaces
      ensures Valid() && Value(raised) == Exchange.ArriveCancel(old(Value(false)), o.id)
    {
      var tracked := Forget(o);
      raised := false;
      if tracked || o.state !in TERMINAL_STATES {
        raised := om.ConfirmCanceled(o);
      }
    }

    /** Takes the order off both dictionaries. */
    method Forget(o: ManagedOrder) returns (tracked: bool)
      requires Valid() && om.Holds(o)
      modifies this`resting, this`pendingPlaces
      ensures Valid() && tracked == (old(FindRest(resting, o.id)).Some? || old(HasPending(pendingPlaces, o.id)))
      ensures resting == PopRest(old(resting), o.id) && pendingPlaces == Without(old(pendingPlaces), o.id)
    {
      tracked := FindRest(resting, o.id).Some?;
      PopRestIds(resting, o.id);
      resting := PopRest(resting, o.id);
      tracked := tracked || HasPending(pendingPlaces, o.id);
      WithoutIds(pendingPlaces, o.id);
      pendingPlaces := Without(pendingPlaces, o.id);
    }

    method ArriveDue(m: Market, due: seq<Pending>) returns (raised: bool)
      requires Valid() && KnownIds(due, |om.orders|)
      modifies om.orders, om.ledger`sessions, om`journal, this`tradeSeq, this`resting
      ensures Valid() && Value(raised) == Exchange.ArriveAll(old(Value(false)), m, due)
    {
      ghost var target := Exchange.ArriveAll(Value(false), m, due);
      raised := false;
      var k := 0;
      while k < |due| && !raised
        invariant 0 <= k <= |due| && Valid()
        invariant KnownIds(due[k..], |om.orders|)
        invariant Exchange.ArriveAll(Value(raised), m, due[k..]) == target
      {
        ArriveNext(Value(false), m, due, k);
        raised := Arrive(m, due[k]);
        k := k + 1;
      }
    }

    method CancelDue(due: seq<Pending>) returns (raised: bool)
      requires Valid() && KnownIds(due, |om.orders|)
      modifies om.orders, this`resting, this`pendingPlaces
      ensures Valid() && Value(raised) == Exchange.CancelAllDue(old(Value(false)), due)
    {
      ghost var target := Exchange.CancelAllDue(Value(false), due);
      raised := false;
      var k := 0;
      while k < |due| && !raised
        invariant 0 <= k <= |due| && Valid()
        invariant KnownIds(due[k..], |om.orders|)
        invariant Exchange.CancelAllDue(Value(raised), due[k..]) == target
      {
        assert due[k..][0] == due[k] && due[k..][1..] == due[k + 1..];
        assert due[k] in due[k..] && forall p <- due[k + 1..] :: p in due[k..];
        raised := ArriveCancel(om.orders[due[k].id]);
        k := k + 1;
      }
    }

    /** Every due place in due order, then every due cancel in due order. */
    method ProcessDue(m: Market, now: int) returns (raised: bool)
      requires Valid()
      modifies om.orders, om.ledger`sessions, om`journal, this`tradeSeq, this`resting, this`pendingPlaces, this`pendingCancels
      ensures Valid() && Value(raised) == Exchange.ProcessDue(old(Value(false)), m, now)
    {
      raised := ProcessPlaces(m, now);
      if !raised {
        raised := ProcessCancels(now);
      }
    }

    method ProcessPlaces(m: Market, now: int) returns (raised: bool)
      requires Valid()
      modifies om.orders, om.ledger`sessions, om`journal, this`tradeSeq, this`resting, this`pendingPlaces
      ensures Valid() && Value(raised) == Exchange.ProcessPlaces(old(Value(false)), m, now)
    {
      DueIds(pendingPlaces, now, |om.orders|);
      var due := ByDue(DueBy(pendingPlaces, now));
      pendingPlaces := DueAfter(pendingPlaces, now);
      raised := ArriveDue(m, due);
    }

    method ProcessCancels(now: int) returns (raised: bool)
      requires Valid()
      modifies om.orders, this`resting, this`pendingPlaces, this`pendingCancels
      ensures Valid() && Value(raised) == Exchange.ProcessCancels(old(Value(false)), now)
    {
      DueIds(pendingCancels, now, |om.orders|);
      var due := ByDue(DueBy(pendingCancels, now));
      pendingCancels := DueAfter(pendingCancels, now);
      raised := CancelDue(due);
    }

    /** One resting order meets one print. */
    method TapeOne(m: Market, id: nat, tape: Print) returns (raised: bool)
      requires Valid() && id < |om.orders|
      modifies om.orders, om.ledger`sessions, om`journal, this`tradeSeq, this`resting
      ensures Valid() && Value(raised) == Exchange.TapeOne(old(Value(false)), m, id, tape)
      ensures old(Ready(Value(false), m, id)) && tape.size >= 0.0 && !raised ==>
                om.journal == Printed(old(Value(false)), id, tape)
    {
      ghost var c := Value(false);
      raised := TapeMeets(m, id, tape);
      if Ready(c, m, id) && tape.size >= 0.0 && !raised { TapePosts(c, m, id, tape, m.FeeOf(c.orders[id].token).value); }
    }

    method TapeMeets(m: Market, id: nat, tape: Print) returns (raised: bool)
      requires Valid() && id < |om.orders|
      modifies om.orders, om.ledger`sessions, om`journal, this`tradeSeq, this`resting
      ensures Valid() && Value(raised) == Exchange.TapeOne(old(Value(false)), m, id, tape)
    {
      var o := om.orders[id];
      var rest := FindRest(resting, id);
      raised := false;
      if rest.None? || !Through(o.Value(), rest.value, tape) {
        return;
      }
      var r := rest.value;
      FindRestId(resting, id);
      PutRestIds(resting, AfterTape(r, tape.size));
      resting := PutRest(resting, AfterTape(r, tape.size));
      assert Value(false) == old(Value(false)).(resting := resting);
      var fill := TapeFill(r, tape.size);
      if fill > 0.0 {
        raised := EmitFill(m, o, o.price, fill, false);
        if !raised && r.remaining - fill <= SIZE_TOL {
          PopRestIds(resting, id);
          resting := PopRest(resting, id);
        }
      }
    }

    /** The loop of on_trade, over the orders that were resting when the print came. */
    method TapeEach(m: Market, ids: seq<nat>, tape: Print) returns (raised: bool)
      requires Valid() && Within(ids, |om.orders|)
      modifies om.orders, om.ledger`sessions, om`journal, this`tradeSeq, this`resting
      ensures Valid() && Value(raised) == Exchange.TapeAll(old(Value(false)), m, ids, tape)
    {
      ghost var target := Exchange.TapeAll(Value(false), m, ids, tape);
      raised := false;
      var k := 0;
      while k < |ids| && !raised
        invariant 0 <= k <= |ids| && Valid()
        invariant Within(ids[k..], |om.orders|)
        invariant Exchange.TapeAll(Value(raised), m, ids[k..], tape) == target
      {
        TapeNext(Value(false), m, ids, k, tape);
        raised := TapeOne(m, ids[k], tape);
        k := k + 1;
      }
    }

    method OnTrade(m: Market, tape: Print) returns (raised: bool)
      requires Valid()
      modifies om.orders, om.ledger`sessions, om`journal, this`tradeSeq, this`resting
      ensures Valid() && Value(raised) == Exchange.OnTrade(old(Value(false)), m, tape)
    {
      raised := TapeEach(m, RestIds(resting), tape);
    }
  }

  ghost predicate RestKnown(rs: seq<Rest>, n: nat) {
    forall r <- rs :: r.id < n
  }

  lemma RestingNext(rs: seq<Rest>, os: seq<Order>, k: nat, slug: string, now: int, lag: nat -> nat)
    requires k < |rs| && RestKnown(rs[k..], |os|)
    ensures rs[k].id < |os| && RestKnown(rs[k + 1..], |os|)
    ensures CancelResting(rs[k..], os, slug, now, lag)
            == (if os[rs[k].id].slug == slug then [Pending(now + lag(rs[k].id), rs[k].id)] else [])
               + CancelResting(rs[k + 1..], os, slug, now, lag)
  {
    var rest := rs[k..];
    assert rest[0] == rs[k] && rest[1..] == rs[k + 1..];
    assert rest[0] in rest && forall r <- rest[1..] :: r in rest;
  }

  lemma AskedNext(before: seq<Pending>, after: seq<Pending>, rs: seq<Rest>, os: seq<Order>, k: nat, slug: string, now: int,
                  lag: nat -> nat)
    requires k < |rs| && RestKnown(rs[k..], |os|) && rs[k].id < |os| && RestKnown(rs[k + 1..], |os|)
    requires after == before + if os[rs[k].id].slug == slug then [Pending(now + lag(rs[k].id), rs[k].id)] else []
    ensures after + CancelResting(rs[k + 1..], os, slug, now, lag) == before + CancelResting(rs[k..], os, slug, now, lag)
  {
    RestingNext(rs, os, k, slug, now, lag);
  }

  lemma ArriveNext(c: Core, m: Market, due: seq<Pending>, k: nat)
    requires k < |due| && !c.fault && KnownIds(due[k..], |c.orders|)
    ensures due[k].id < |c.orders| && KnownIds(due[k + 1..], |c.orders|)
    ensures Exchange.ArriveAll(c, m, due[k..]) == Exchange.ArriveAll(Exchange.Arrive(c, m, due[k]), m, due[k + 1..])
  {
    var rest := due[k..];
    assert rest[0] == due[k] && rest[1..] == due[k + 1..];
    assert rest[0] in rest && forall p <- rest[1..] :: p in rest;
    assert Exchange.ArriveAll(c, m, rest) == Exchange.ArriveAll(Exchange.Arrive(c, m, rest[0]), m, rest[1..]);
  }

  ghost predicate Within(ids: seq<nat>, n: nat) {
    forall id <- ids :: id < n
  }

  lemma TapeNext(c: Core, m: Market, ids: seq<nat>, k: nat, tape: Print)
    requires k < |ids| && !c.fault && Within(ids[k..], |c.orders|)
    ensures ids[k] < |c.orders| && Within(ids[k + 1..], |c.orders|)
    ensures Exchange.TapeAll(c, m, ids[k..], tape)
            == Exchange.TapeAll(Exchange.TapeOne(c, m, ids[k], tape), m, ids[k + 1..], tape)
  {
    var rest := ids[k..];
    assert rest[0] == ids[k] && rest[1..] == ids[k + 1..];
    assert rest[0] in rest && forall id <- rest[1..] :: id in rest;
    assert Exchange.TapeAll(c, m, rest, tape) == Exchange.TapeAll(Exchange.TapeOne(c, m, rest[0], tape), m, rest[1..], tape);
  }

  lemma {:induction false} PutRestIds(rs: seq<Rest>, r: Rest)
    ensures forall x <- PutRest(rs, r) :: x.id == r.id || x in rs
  {
    if rs != [] && rs[0].id != r.id { PutRestIds(rs[1..], r); }
  }

  lemma {:induction false} FindRestId(rs: seq<Rest>, id: nat)
    ensures FindRest(rs, id).Some? ==> FindRest(rs, id).value.id == id
  {
    if rs != [] { FindRestId(rs[1..], id); }
  }

  lemma {:induction false} PopRestIds(rs: seq<Rest>, id: nat)
    ensures forall x <- PopRest(rs, id) :: x in rs
  {
    if rs != [] { PopRestIds(rs[1..], id); }
  }

  lemma {:induction false} WithoutIds(ps: seq<Pending>, id: nat)
    ensures forall p <- Without(ps, id) :: p in ps
  {
    if ps != [] { WithoutIds(ps[1..], id); }
  }
}
