/** OrderManager and ShadowExchange as one state, and each of their methods as a function on it. */
module Exchange {
  import opened Grid
  import opened Orders
  import opened Books
  import opened Matching

  /** _PendingPlace and _PendingCancel */
  datatype Pending = Pending(due: int, id: nat)

  /** _RestingMaker */
  datatype Rest = Rest(id: nat, queueAhead: real, activeFrom: int, remaining: real)

  /** A fill that accounting was told about, under the slug of its order. */
  datatype Posting = Posting(slug: string, id: nat, fill: Fill)

  /** TradePrint */
  datatype Print = Print(token: string, price: real, size: real, recv: int)

  /** The order with client id n is orders[n]; acked holds the exchange ids known to the order manager.
      Once an exception has been raised (fault) the step that raised it goes no further. */
  datatype Core = Core(orders: seq<Order>, acked: set<nat>, places: seq<Pending>, cancels: seq<Pending>,
                       resting: seq<Rest>, tradeSeq: nat, journal: seq<Posting>, fault: bool)

  const EMPTY: Core := Core([], {}, [], [], [], 0, [], false)

  /** What a call raised, if anything, has been caught and logged: the state is as the call left it. */
  function Caught(c: Core): Core {
    if c.fault then c.(fault := false) else c
  }

  /** What the exchange reads through its providers: the mirrored books and the fee rate of each token. */
  datatype Market = Market(books: map<string, Book>, fees: map<string, real>)
  {
    function BookOf(token: string): Option<Book> {
      if token in books then Some(books[token]) else None
    }

    function FeeOf(token: string): Option<real> {
      if token in fees then Some(fees[token]) else None
    }
  }

  /** FeeModel.fee_per_share */
  function FeePerShare(rate: real, price: real): real {
    if 0.0 < price < 1.0 then rate * price * (1.0 - price) else 0.0
  }

  // ---- OrderManager

  /** ManagedOrder.transition */
  function Move(c: Core, id: nat, next: OrderState): Core
    requires id < |c.orders|
  {
    if c.orders[id].CanBecome(next) then c.(orders := c.orders[id := c.orders[id].(state := next)])
    else c.(fault := true)
  }

  /** OrderManager.draft: the new client id is the number of orders so far. */
  function Drafted(c: Core, o: Order): Core {
    c.(orders := c.orders + [o])
  }

  /** OrderManager.submit through the shadow adapter, which always acknowledges. */
  function Submit(c: Core, id: nat, due: int): Core
    requires id < |c.orders|
  {
    var c1 := Move(c, id, Signed);
    if c1.fault then c1
    else
      var c2 := Move(c1, id, Sent);
      if c2.fault then c2
      else
        var c3 := c2.(places := c2.places + [Pending(due, id)]);
        Move(c3.(acked := c3.acked + {id}), id, Acked)
  }

  /** OrderManager.request_cancel */
  function RequestCancel(c: Core, id: nat, due: int): Core
    requires id < |c.orders|
  {
    if c.orders[id].Terminal() then c
    else c.(orders := c.orders[id := c.orders[id].(cancelRequested := true)],
            cancels := c.cancels + [Pending(due, id)])
  }

  /** OrderManager.confirm_canceled */
  function ConfirmCanceled(c: Core, id: nat): Core
    requires id < |c.orders|
  {
    if c.orders[id].Terminal() then c else Move(c, id, Canceled)
  }

  /** OrderManager.expire_unfilled */
  function ExpireUnfilled(c: Core, id: nat): Core
    requires id < |c.orders|
  {
    if c.orders[id].Terminal() then c else Move(c, id, Expired)
  }

  /** Looks up a fill's order by exchange id, then by client id. */
  function Resolve(c: Core, r: OrderRef): Option<nat> {
    match r
    case ExchangeRef(n) => if n in c.acked && n < |c.orders| then Some(n) else None
    case ClientRef(n) => if n < |c.orders| then Some(n) else None
  }

  /** OrderManager.apply_fill: a fill for an unknown order is an incident and changes nothing. */
  function ApplyFill(c: Core, f: Fill): Core {
    match Resolve(c, f.order)
    case None => c
    case Some(id) =>
      var d := Deliver(c.orders[id], f);
      c.(orders := c.orders[id := d.order],
         journal := if d.applied then c.journal + [Posting(c.orders[id].slug, id, f)] else c.journal,
         fault := d.raised)
  }

  // ---- ShadowExchange

  function MakeFill(o: Order, id: nat, rate: real, price: real, size: real, taker: bool, number: nat): Fill {
    var perShare := FeePerShare(rate, price);
    Fill(ExchangeRef(id), o.token, o.side, price, size,
         if taker && o.side == Buy then Product(perShare, size) else 0.0,
         if taker && o.side == Sell then Product(perShare, size) else 0.0,
         Shadow(number))
  }

  /** ShadowExchange._emit_fill */
  function EmitFill(c: Core, m: Market, id: nat, price: real, size: real, taker: bool): Core
    requires id < |c.orders|
  {
    match m.FeeOf(c.orders[id].token)
    case None => ExpireUnfilled(c, id)
    case Some(rate) =>
      ApplyFill(c.(tradeSeq := c.tradeSeq + 1),
                MakeFill(c.orders[id], id, rate, price, size, taker, c.tradeSeq + 1))
  }

  /** Fills and arrivals leave the pending requests alone and only ever add postings. */
  predicate SameBooking(c: Core, r: Core) {
    && |r.orders| == |c.orders| && r.places == c.places && r.cancels == c.cancels && r.acked == c.acked
    && c.journal <= r.journal
  }

  function EmitAll(c: Core, m: Market, id: nat, quotes: seq<Quote>): (r: Core)
    requires id < |c.orders|
    ensures SameBooking(c, r)
    decreases quotes
  {
    if quotes == [] || c.fault then c
    else EmitAll(EmitFill(c, m, id, quotes[0].price, quotes[0].size, true), m, id, quotes[1..])
  }

  /** The quotes a taker order gets: none at all for a FOK order that would be left incomplete. */
  function TakerQuotes(o: Order, b: Book): Walked {
    var w := Walk(o.side, o.price, TopLevels(Opposite(o.side), b.Of(Opposite(o.side)), 64), o.size);
    if o.tif == FOK && w.remaining > SIZE_TOL then w.(quotes := []) else w
  }

  /** ShadowExchange._taker_fill */
  function TakerFill(c: Core, m: Market, id: nat, b: Book): (r: Core)
    requires id < |c.orders|
    ensures SameBooking(c, r)
  {
    var w := TakerQuotes(c.orders[id], b);
    if w.quotes == [] then ExpireUnfilled(c, id)
    else
      var c1 := EmitAll(c, m, id, w.quotes);
      if !c1.fault && w.remaining > SIZE_TOL then ExpireUnfilled(c1, id) else c1
  }

  /** The first level, oldest key first, within the price tolerance of a price. */
  function SizeAt(ls: Levels, price: real): real {
    if ls == [] then 0.0
    else if -PRICE_TOL < ls[0].price - price < PRICE_TOL then ls[0].size
    else SizeAt(ls[1..], price)
  }

  /** A "maker" order priced through the touch. */
  predicate Crosses(o: Order, b: Book) {
    if o.side == Buy then
      var ask := Best(Sell, b.asks); ask.Some? && o.price >= ask.value.price
    else
      var bid := Best(Buy, b.bids); bid.Some? && o.price <= bid.value.price
  }

  /** Dictionary assignment into _resting. */
  function PutRest(rs: seq<Rest>, r: Rest): seq<Rest> {
    if rs == [] then [r]
    else if rs[0].id == r.id then [r] + rs[1..]
    else [rs[0]] + PutRest(rs[1..], r)
  }

  function PopRest(rs: seq<Rest>, id: nat): seq<Rest> {
    if rs == [] then []
    else if rs[0].id == id then PopRest(rs[1..], id)
    else [rs[0]] + PopRest(rs[1..], id)
  }

  function FindRest(rs: seq<Rest>, id: nat): Option<Rest> {
    if rs == [] then None else if rs[0].id == id then Some(rs[0]) else FindRest(rs[1..], id)
  }

  /** ShadowExchange._rest_maker */
  function RestMaker(c: Core, m: Market, id: nat, b: Book, arrival: int): (r: Core)
    requires id < |c.orders|
    ensures SameBooking(c, r)
  {
    var o := c.orders[id];
    if Crosses(o, b) then TakerFill(c, m, id, b)
    else c.(resting := PutRest(c.resting, Rest(id, SizeAt(b.Of(o.side), o.price), arrival, o.size)))
  }

  /** ShadowExchange._arrive */
  function Arrive(c: Core, m: Market, p: Pending): (r: Core)
    requires p.id < |c.orders|
    ensures SameBooking(c, r)
  {
    var book := m.BookOf(c.orders[p.id].token);
    if book.None? || book.value.dirty then ExpireUnfilled(c, p.id)
    else if c.orders[p.id].tif in {FAK, FOK} then TakerFill(c, m, p.id, book.value)
    else RestMaker(c, m, p.id, book.value, p.due)
  }

  ghost predicate KnownIds(ps: seq<Pending>, n: nat) {
    forall p <- ps :: p.id < n
  }

  function ArriveAll(c: Core, m: Market, ps: seq<Pending>): (r: Core)
    requires KnownIds(ps, |c.orders|)
    ensures SameBooking(c, r)
    decreases ps
  {
    if ps == [] || c.fault then c
    else
      assert ps[0] in ps;
      assert forall p <- ps[1..] :: p in ps;
      ArriveAll(Arrive(c, m, ps[0]), m, ps[1..])
  }

  function Without(ps: seq<Pending>, id: nat): seq<Pending> {
    if ps == [] then []
    else if ps[0].id == id then Without(ps[1..], id)
    else [ps[0]] + Without(ps[1..], id)
  }

  predicate HasPending(ps: seq<Pending>, id: nat) {
    exists p <- ps :: p.id == id
  }

  /** ShadowExchange._arrive_cancel */
  function ArriveCancel(c: Core, id: nat): (r: Core)
    requires id < |c.orders|
    ensures |r.orders| == |c.orders| && r.journal == c.journal
  {
    var tracked := FindRest(c.resting, id).Some? || HasPending(c.places, id);
    var c1 := c.(resting := PopRest(c.resting, id), places := Without(c.places, id));
    if tracked || !c.orders[id].Terminal() then ConfirmCanceled(c1, id) else c1
  }

  function CancelAllDue(c: Core, ps: seq<Pending>): (r: Core)
    requires KnownIds(ps, |c.orders|)
    ensures |r.orders| == |c.orders| && r.journal == c.journal
    decreases ps
  {
    if ps == [] || c.fault then c
    else
      assert ps[0] in ps;
      assert forall p <- ps[1..] :: p in ps;
      CancelAllDue(ArriveCancel(c, ps[0].id), ps[1..])
  }

  function DueBy(ps: seq<Pending>, now: int): seq<Pending> {
    if ps == [] then []
    else if ps[0].due <= now then [ps[0]] + DueBy(ps[1..], now)
    else DueBy(ps[1..], now)
  }

  function DueAfter(ps: seq<Pending>, now: int): seq<Pending> {
    if ps == [] then []
    else if ps[0].due > now then [ps[0]] + DueAfter(ps[1..], now)
    else DueAfter(ps[1..], now)
  }

  function InsertDue(p: Pending, ps: seq<Pending>): seq<Pending> {
    if ps == [] || p.due <= ps[0].due then [p] + ps else [ps[0]] + InsertDue(p, ps[1..])
  }

  /** Python's stable sort by due time. */
  function ByDue(ps: seq<Pending>): seq<Pending> {
    if ps == [] then [] else InsertDue(ps[0], ByDue(ps[1..]))
  }

  function DueAt(ps: seq<Pending>, due: int): seq<Pending> {
    if ps == [] then [] else if ps[0].due == due then [ps[0]] + DueAt(ps[1..], due) else DueAt(ps[1..], due)
  }

  predicate InDueOrder(ps: seq<Pending>) {
    forall i, j :: 0 <= i < j < |ps| ==> ps[i].due <= ps[j].due
  }

  lemma {:induction false} InsertDueKeeps(p: Pending, ps: seq<Pending>)
    ensures multiset(InsertDue(p, ps)) == multiset(ps) + multiset{p}
    ensures forall q <- InsertDue(p, ps) :: q == p || q in ps
  {
    if ps != [] && p.due > ps[0].due {
      InsertDueKeeps(p, ps[1..]);
      assert ps == [ps[0]] + ps[1..];
    }
  }

  lemma {:induction false} InsertDueSorts(p: Pending, ps: seq<Pending>)
    requires InDueOrder(ps)
    ensures InDueOrder(InsertDue(p, ps))
  {
    if ps != [] && p.due > ps[0].due {
      InsertDueSorts(p, ps[1..]);
      InsertDueKeeps(p, ps[1..]);
      var r := InsertDue(p, ps[1..]);
      forall k | 0 <= k < |r| ensures ps[0].due <= r[k].due { assert r[k] in r; }
    }
  }

  lemma {:induction false} InsertDueStable(p: Pending, ps: seq<Pending>, due: int)
    ensures DueAt(InsertDue(p, ps), due) == if p.due == due then [p] + DueAt(ps, due) else DueAt(ps, due)
  {
    if ps == [] || p.due <= ps[0].due {
      assert ([p] + ps)[1..] == ps;
    } else {
      InsertDueStable(p, ps[1..], due);
      var r := InsertDue(p, ps[1..]);
      assert ([ps[0]] + r)[1..] == r;
    }
  }

  /** Requests are met in the order of their due times, and those due together in the order they were made. */
  lemma {:induction false} ByDueSorts(ps: seq<Pending>, due: int)
    ensures InDueOrder(ByDue(ps)) && multiset(ByDue(ps)) == multiset(ps) && DueAt(ByDue(ps), due) == DueAt(ps, due)
  {
    if ps != [] {
      ByDueSorts(ps[1..], due);
      InsertDueSorts(ps[0], ByDue(ps[1..]));
      InsertDueKeeps(ps[0], ByDue(ps[1..]));
      InsertDueStable(ps[0], ByDue(ps[1..]), due);
      assert ps == [ps[0]] + ps[1..];
    }
  }

  /** All ids held by the exchange are client ids of the order manager. */
  ghost predicate Indexed(c: Core) {
    && KnownIds(c.places, |c.orders|)
    && KnownIds(c.cancels, |c.orders|)
    && (forall r <- c.resting :: r.id < |c.orders|)
  }

  lemma {:induction false} DueIds(ps: seq<Pending>, now: int, n: nat)
    requires KnownIds(ps, n)
    ensures KnownIds(DueBy(ps, now), n) && KnownIds(DueAfter(ps, now), n) && KnownIds(ByDue(DueBy(ps, now)), n)
  {
    if ps != [] {
      assert ps[0] in ps && forall p <- ps[1..] :: p in ps;
      DueIds(ps[1..], now, n);
      SortIds(DueBy(ps, now), n);
    }
  }

  lemma {:induction false} SortIds(ps: seq<Pending>, n: nat)
    requires KnownIds(ps, n)
    ensures KnownIds(ByDue(ps), n)
  {
    if ps != [] {
      assert ps[0] in ps && forall p <- ps[1..] :: p in ps;
      SortIds(ps[1..], n);
      InsertIds(ps[0], ByDue(ps[1..]), n);
    }
  }

  lemma {:induction false} InsertIds(p: Pending, ps: seq<Pending>, n: nat)
    requires p.id < n && KnownIds(ps, n)
    ensures KnownIds(InsertDue(p, ps), n)
  {
    if ps != [] && p.due > ps[0].due {
      assert ps[0] in ps && forall q <- ps[1..] :: q in ps;
      InsertIds(p, ps[1..], n);
    }
  }

  function ProcessPlaces(c: Core, m: Market, now: int): (r: Core)
    requires KnownIds(c.places, |c.orders|)
    ensures SameBooking(c.(places := DueAfter(c.places, now)), r)
  {
    DueIds(c.places, now, |c.orders|);
    ArriveAll(c.(places := DueAfter(c.places, now)), m, ByDue(DueBy(c.places, now)))
  }

  function ProcessCancels(c: Core, now: int): (r: Core)
    requires KnownIds(c.cancels, |c.orders|)
    ensures |r.orders| == |c.orders| && r.journal == c.journal
  {
    DueIds(c.cancels, now, |c.orders|);
    CancelAllDue(c.(cancels := DueAfter(c.cancels, now)), ByDue(DueBy(c.cancels, now)))
  }

  /** ShadowExchange.process_due: every due place in due order, then every due cancel in due order. */
  function ProcessDue(c: Core, m: Market, now: int): (r: Core)
    requires Indexed(c)
    ensures |r.orders| == |c.orders| && c.journal <= r.journal
  {
    var c1 := ProcessPlaces(c, m, now);
    if c1.fault then c1 else ProcessCancels(c1, now)
  }

  /** The tape trades through a resting order's price after it became active. */
  predicate Through(o: Order, r: Rest, tp: Print) {
    && o.token == tp.token
    && tp.recv >= r.activeFrom
    && (if o.side == Sell then tp.price >= o.price - PRICE_TOL else tp.price <= o.price + PRICE_TOL)
  }

  /** How much of a print the queue ahead of a resting order absorbs. */
  function Absorbed(r: Rest, size: real): real {
    if r.queueAhead > 0.0 then Min(r.queueAhead, size) else 0.0
  }

  /** What a print that trades through leaves for the resting order: its fill, if positive. */
  function TapeFill(r: Rest, size: real): real {
    Min(size - Absorbed(r, size), r.remaining)
  }

  function AfterTape(r: Rest, size: real): Rest {
    r.(queueAhead := r.queueAhead - Absorbed(r, size), remaining := r.remaining - Max(TapeFill(r, size), 0.0))
  }

  /** One iteration of ShadowExchange.on_trade. */
  function TapeOne(c: Core, m: Market, id: nat, tp: Print): (r: Core)
    requires id < |c.orders|
    ensures SameBooking(c, r)
  {
    var rest := FindRest(c.resting, id);
    if rest.None? || !Through(c.orders[id], rest.value, tp) then c
    else
      var r := rest.value;
      var c1 := c.(resting := PutRest(c.resting, AfterTape(r, tp.size)));
      var fill := TapeFill(r, tp.size);
      if fill <= 0.0 then c1
      else
        var c2 := EmitFill(c1, m, id, c.orders[id].price, fill, false);
        if !c2.fault && r.remaining - fill <= SIZE_TOL then c2.(resting := PopRest(c2.resting, id)) else c2
  }

  function TapeAll(c: Core, m: Market, ids: seq<nat>, tp: Print): (r: Core)
    requires forall id <- ids :: id < |c.orders|
    ensures SameBooking(c, r)
    decreases ids
  {
    if ids == [] || c.fault then c
    else
      assert ids[0] in ids;
      assert forall id <- ids[1..] :: id in ids;
      TapeAll(TapeOne(c, m, ids[0], tp), m, ids[1..], tp)
  }

  function RestIds(rs: seq<Rest>): (ids: seq<nat>)
    ensures |ids| == |rs| && forall k :: 0 <= k < |rs| ==> ids[k] == rs[k].id
  {
    if rs == [] then [] else [rs[0].id] + RestIds(rs[1..])
  }

  /** ShadowExchange.on_trade */
  function OnTrade(c: Core, m: Market, tp: Print): (r: Core)
    requires Indexed(c)
    ensures SameBooking(c, r)
  {
    TapeAll(c, m, RestIds(c.resting), tp)
  }

  /** The cancel requests of ShadowExchange.cancel_all for the resting orders of a session. */
  function CancelResting(rs: seq<Rest>, orders: seq<Order>, slug: string, now: int, lag: nat -> nat): seq<Pending>
    requires forall r <- rs :: r.id < |orders|
  {
    if rs == [] then []
    else
      assert rs[0] in rs && forall r <- rs[1..] :: r in rs;
      if orders[rs[0].id].slug == slug
      then [Pending(now + lag(rs[0].id), rs[0].id)] + CancelResting(rs[1..], orders, slug, now, lag)
      else CancelResting(rs[1..], orders, slug, now, lag)
  }

  function CancelPlaces(ps: seq<Pending>, orders: seq<Order>, slug: string, now: int, lag: nat -> nat): seq<Pending>
    requires KnownIds(ps, |orders|)
  {
    if ps == [] then []
    else
      assert ps[0] in ps && forall p <- ps[1..] :: p in ps;
      if orders[ps[0].id].slug == slug
      then [Pending(now + lag(ps[0].id), ps[0].id)] + CancelPlaces(ps[1..], orders, slug, now, lag)
      else CancelPlaces(ps[1..], orders, slug, now, lag)
  }

  function FlagOpen(o: Order, slug: string): Order {
    if o.slug == slug && !o.Terminal() then o.(cancelRequested := true) else o
  }

  function FlagAll(orders: seq<Order>, slug: string): (r: seq<Order>)
    ensures |r| == |orders| && forall k :: 0 <= k < |r| ==> r[k] == FlagOpen(orders[k], slug)
  {
    if orders == [] then [] else [FlagOpen(orders[0], slug)] + FlagAll(orders[1..], slug)
  }

  /** OrderManager.cancel_all_for_session; lag(n) is the sampled round trip of the cancel of order n. */
  function CancelAll(c: Core, slug: string, now: int, lag: nat -> nat): (r: Core)
    requires Indexed(c)
    ensures |r.orders| == |c.orders|
  {
    c.(orders := FlagAll(c.orders, slug),
       cancels := c.cancels + CancelResting(c.resting, c.orders, slug, now, lag)
                            + CancelPlaces(c.places, c.orders, slug, now, lag))
  }
}
