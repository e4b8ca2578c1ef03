/** The exchange is a product of independent single-order machines: projecting any of its operations on one
    order gives that order's own operation, whatever the other orders do. */
module Projection {
  import opened Grid
  import opened Orders
  import opened Books
  import opened Matching
  import opened Exchange
  import opened OneOrder

  function Of(ps: seq<Pending>, id: nat): seq<int> {
    if ps == [] then []
    else if ps[0].id == id then [ps[0].due] + Of(ps[1..], id)
    else Of(ps[1..], id)
  }

  function FillsOf(journal: seq<Posting>, id: nat): seq<Exec> {
    if journal == [] then []
    else
      var last := journal[|journal| - 1];
      FillsOf(journal[..|journal| - 1], id) + (if last.id == id then [ExecOf(last.fill)] else [])
  }

  /** Everything the exchange and the order manager hold about one order, trade numbers apart. */
  function LifeOf(c: Core, id: nat): Life
    requires id < |c.orders|
  {
    Life(id, c.orders[id].(seen := {}), Of(c.places, id), Of(c.cancels, id), FindRest(c.resting, id),
         id in c.acked, FillsOf(c.journal, id), false)
  }

  ghost predicate DistinctRest(rs: seq<Rest>) {
    forall i, j :: 0 <= i < j < |rs| ==> rs[i].id != rs[j].id
  }

  /** Trade numbers in use are at most tradeSeq, so the next one is fresh. */
  ghost predicate Numbered(c: Core) {
    forall i, t :: 0 <= i < |c.orders| && t in c.orders[i].seen ==> t.Shadow? && t.number <= c.tradeSeq
  }

  /** Every posting carries the slug, token and side of its order. */
  ghost predicate Tagged(c: Core) {
    forall p <- c.journal ::
      && p.id < |c.orders| && p.slug == c.orders[p.id].slug
      && p.fill.token == c.orders[p.id].token && p.fill.side == c.orders[p.id].side
  }

  ghost predicate Orderly(c: Core) {
    Indexed(c) && DistinctRest(c.resting) && Numbered(c) && Tagged(c) && forall n <- c.acked :: n < |c.orders|
  }

  /** From c to r order id moved to l, which may have raised, and no other order was touched. */
  ghost predicate Moved(c: Core, r: Core, id: nat, l: Life)
    requires id < |c.orders|
  {
    && |r.orders| == |c.orders|
    && r.fault == l.raised
    && Orderly(r)
    && LifeOf(r, id) == l.(raised := false)
    && forall j :: 0 <= j < |c.orders| && j != id ==> LifeOf(r, j) == LifeOf(c, j)
  }

  // ---- the collections, seen from one order

  lemma {:induction false} OfConcat(ps: seq<Pending>, qs: seq<Pending>, id: nat)
    ensures Of(ps + qs, id) == Of(ps, id) + Of(qs, id)
  {
    if ps == [] {
      assert ps + qs == qs;
    } else {
      OfConcat(ps[1..], qs, id);
      assert (ps + qs)[1..] == ps[1..] + qs;
    }
  }

  lemma OfCons(p: Pending, ps: seq<Pending>, id: nat)
    ensures Of([p] + ps, id) == if p.id == id then [p.due] + Of(ps, id) else Of(ps, id)
  {
    assert ([p] + ps)[1..] == ps;
  }

  lemma TimesCons(t: int, ts: seq<int>, now: int)
    ensures TimesBy([t] + ts, now) == if t <= now then [t] + TimesBy(ts, now) else TimesBy(ts, now)
    ensures TimesAfter([t] + ts, now) == if t > now then [t] + TimesAfter(ts, now) else TimesAfter(ts, now)
  {
    assert ([t] + ts)[1..] == ts;
  }

  lemma {:induction false} OfDue(ps: seq<Pending>, now: int, id: nat)
    ensures Of(DueBy(ps, now), id) == TimesBy(Of(ps, id), now)
    ensures Of(DueAfter(ps, now), id) == TimesAfter(Of(ps, id), now)
  {
    if ps != [] {
      OfDue(ps[1..], now, id);
      OfCons(ps[0], DueBy(ps[1..], now), id);
      OfCons(ps[0], DueAfter(ps[1..], now), id);
      TimesCons(ps[0].due, Of(ps[1..], id), now);
    }
  }

  lemma {:induction false} OfWithout(ps: seq<Pending>, gone: nat, id: nat)
    ensures Of(Without(ps, gone), id) == if id == gone then [] else Of(ps, id)
    ensures HasPending(ps, id) <==> Of(ps, id) != []
  {
    if ps != [] {
      OfWithout(ps[1..], gone, id);
      assert ps == [ps[0]] + ps[1..];
    }
  }

  ghost predicate Ascending(ps: seq<Pending>) {
    forall i, j :: 0 <= i < j < |ps| ==> ps[i].due <= ps[j].due
  }

  lemma {:induction false} InsertAscending(p: Pending, ps: seq<Pending>)
    requires Ascending(ps)
    ensures Ascending(InsertDue(p, ps))
    ensures forall q <- InsertDue(p, ps) :: q == p || q in ps
  {
    if ps != [] && p.due > ps[0].due {
      InsertAscending(p, ps[1..]);
      assert forall q <- ps[1..] :: q in ps && ps[0].due <= q.due;
    }
  }

  lemma {:induction false} OfInsert(p: Pending, ps: seq<Pending>, id: nat)
    requires Ascending(ps)
    ensures Of(InsertDue(p, ps), id) == if p.id == id then InsertTime(p.due, Of(ps, id)) else Of(ps, id)
  {
    if ps == [] || p.due <= ps[0].due {
      if ps != [] { OfHead(ps, id); }
      OfCons(p, ps, id);
    } else {
      OfInsert(p, ps[1..], id);
      OfCons(ps[0], InsertDue(p, ps[1..]), id);
      if ps[0].id == id {
        assert ([ps[0].due] + Of(ps[1..], id))[1..] == Of(ps[1..], id);
      }
    }
  }

  lemma {:induction false} OfHead(ps: seq<Pending>, id: nat)
    requires Ascending(ps) && ps != []
    ensures Of(ps, id) != [] ==> ps[0].due <= Of(ps, id)[0]
  {
    if ps[0].id != id && |ps| > 1 {
      OfHead(ps[1..], id);
    }
  }

  lemma {:induction false} OfSorted(ps: seq<Pending>, id: nat)
    ensures Ascending(ByDue(ps))
    ensures Of(ByDue(ps), id) == SortTimes(Of(ps, id))
  {
    if ps != [] {
      OfSorted(ps[1..], id);
      InsertAscending(ps[0], ByDue(ps[1..]));
      OfInsert(ps[0], ByDue(ps[1..]), id);
      if ps[0].id == id {
        assert ([ps[0].due] + Of(ps[1..], id))[1..] == Of(ps[1..], id);
      }
    }
  }

  lemma FillsOfAppend(journal: seq<Posting>, p: Posting, id: nat)
    ensures FillsOf(journal + [p], id) == FillsOf(journal, id) + if p.id == id then [ExecOf(p.fill)] else []
  {
    assert (journal + [p])[..|journal|] == journal;
  }

  lemma {:induction false} FindPut(rs: seq<Rest>, r: Rest, id: nat)
    ensures FindRest(PutRest(rs, r), id) == if id == r.id then Some(r) else FindRest(rs, id)
    ensures forall x <- PutRest(rs, r) :: x == r || x in rs
    ensures DistinctRest(rs) ==> DistinctRest(PutRest(rs, r))
  {
    if rs != [] {
      assert rs == [rs[0]] + rs[1..];
      if rs[0].id != r.id {
        FindPut(rs[1..], r, id);
        var t := PutRest(rs[1..], r);
        assert ([rs[0]] + t)[1..] == t;
        if DistinctRest(rs) {
          assert DistinctRest(rs[1..]);
          assert forall x <- t :: x.id != rs[0].id;
        }
      } else {
        assert ([r] + rs[1..])[1..] == rs[1..];
      }
    }
  }

  lemma {:induction false} FindPop(rs: seq<Rest>, gone: nat, id: nat)
    ensures FindRest(PopRest(rs, gone), id) == if id == gone then None else FindRest(rs, id)
    ensures forall x <- PopRest(rs, gone) :: x in rs && x.id != gone
    ensures DistinctRest(rs) ==> DistinctRest(PopRest(rs, gone))
  {
    if rs != [] {
      assert rs == [rs[0]] + rs[1..];
      FindPop(rs[1..], gone, id);
      var t := PopRest(rs[1..], gone);
      if DistinctRest(rs) {
        assert DistinctRest(rs[1..]);
        assert forall x <- t :: x.id != rs[0].id;
      }
      if rs[0].id != gone { assert ([rs[0]] + t)[1..] == t; }
    }
  }

  lemma {:induction false} FindRestId(rs: seq<Rest>, id: nat)
    ensures FindRest(rs, id).Some? ==> FindRest(rs, id).value.id == id && FindRest(rs, id).value in rs
    ensures FindRest(rs, id).Some? <==> id in RestIds(rs)
  {
    if rs != [] {
      FindRestId(rs[1..], id);
      assert RestIds(rs) == [rs[0].id] + RestIds(rs[1..]);
    }
  }

  // ---- operations on one order

  lemma MovedTwice(c: Core, c1: Core, c2: Core, id: nat, l1: Life, l2: Life)
    requires id < |c.orders| && Moved(c, c1, id, l1) && !c1.fault && Moved(c1, c2, id, l2)
    ensures Moved(c, c2, id, l2)
  {
  }

  lemma ShiftMoves(c: Core, id: nat, next: OrderState)
    requires Orderly(c) && !c.fault && id < |c.orders|
    ensures Moved(c, Move(c, id, next), id, Shift(LifeOf(c, id), next))
  {
  }

  lemma LapseMoves(c: Core, id: nat)
    requires Orderly(c) && !c.fault && id < |c.orders|
    ensures Moved(c, ExpireUnfilled(c, id), id, Lapse(LifeOf(c, id)))
  {
    ShiftMoves(c, id, Expired);
  }

  /** A fresh trade number makes the fill look the same to its order as an unnumbered one. */
  lemma DeliverFresh(o: Order, f: Fill)
    requires f.tradeId != Unidentified && f.tradeId !in o.seen
    ensures var d, d0 := Deliver(o, f), Deliver(o.(seen := {}), f.(tradeId := Unidentified));
            d0 == d.(order := d.order.(seen := {})) && d.order.seen == o.seen + {f.tradeId}
    ensures Deliver(o, f).order.slug == o.slug && Deliver(o, f).order.token == o.token && Deliver(o, f).order.side == o.side
  {
  }

  /** A numbered shadow fill for order id. */
  ghost predicate Numbers(c: Core, id: nat, f: Fill) {
    && id < |c.orders| && id in c.acked && f.order == ExchangeRef(id) && f.tradeId == Shadow(c.tradeSeq + 1)
    && f.token == c.orders[id].token && f.side == c.orders[id].side
  }

  lemma AppliedOrderly(c: Core, id: nat, f: Fill)
    requires Orderly(c) && !c.fault && Numbers(c, id, f)
    ensures Orderly(ApplyFill(c.(tradeSeq := c.tradeSeq + 1), f))
  {
    DeliverFresh(c.orders[id], f);
  }

  lemma AppliedLives(c: Core, id: nat, f: Fill, j: nat)
    requires Orderly(c) && !c.fault && Numbers(c, id, f) && j < |c.orders|
    ensures var r := ApplyFill(c.(tradeSeq := c.tradeSeq + 1), f);
            var d := Deliver(c.orders[id].(seen := {}), f.(tradeId := Unidentified));
            && |r.orders| == |c.orders|
            && r.fault == d.raised
            && LifeOf(r, j) == if j != id then LifeOf(c, j) else
                 LifeOf(c, id).(order := d.order,
                                fills := if d.applied then LifeOf(c, id).fills + [ExecOf(f)] else LifeOf(c, id).fills)
  {
    DeliverFresh(c.orders[id], f);
    FillsOfAppend(c.journal, Posting(c.orders[id].slug, id, f), j);
  }

  lemma AppliedMoves(c: Core, id: nat, f: Fill)
    requires Orderly(c) && !c.fault && Numbers(c, id, f)
    ensures var l := LifeOf(c, id); var d := Deliver(l.order, f.(tradeId := Unidentified));
            Moved(c, ApplyFill(c.(tradeSeq := c.tradeSeq + 1), f), id,
                  l.(order := d.order, fills := if d.applied then l.fills + [ExecOf(f)] else l.fills, raised := d.raised))
  {
    AppliedOrderly(c, id, f);
    forall j | 0 <= j < |c.orders| {
      AppliedLives(c, id, f, j);
    }
    AppliedLives(c, id, f, id);
  }

  /** A fill nobody can resolve only uses up a trade number. */
  lemma UnresolvedMoves(c: Core, id: nat, f: Fill)
    requires Orderly(c) && !c.fault && id < |c.orders| && id !in c.acked && f.order == ExchangeRef(id)
    ensures Moved(c, ApplyFill(c.(tradeSeq := c.tradeSeq + 1), f), id, LifeOf(c, id))
  {
  }

  /** What one order's machine makes of a fill, in terms of the numbered fill. */
  lemma EmitDelivers(c: Core, id: nat, rate: real, price: real, size: real, taker: bool)
    requires id < |c.orders|
    ensures var l, f := LifeOf(c, id), MakeFill(c.orders[id], id, rate, price, size, taker, c.tradeSeq + 1);
            var d := Deliver(l.order, f.(tradeId := Unidentified));
            Emit(l, Some(rate), price, size, taker)
            == if id !in c.acked then l
               else l.(order := d.order, fills := if d.applied then l.fills + [ExecOf(f)] else l.fills, raised := d.raised)
  {
  }

  lemma PricedMoves(c: Core, id: nat, rate: real, price: real, size: real, taker: bool)
    requires Orderly(c) && !c.fault && id < |c.orders|
    ensures var f := MakeFill(c.orders[id], id, rate, price, size, taker, c.tradeSeq + 1);
            Moved(c, ApplyFill(c.(tradeSeq := c.tradeSeq + 1), f), id, Emit(LifeOf(c, id), Some(rate), price, size, taker))
  {
    var f := MakeFill(c.orders[id], id, rate, price, size, taker, c.tradeSeq + 1);
    EmitDelivers(c, id, rate, price, size, taker);
    if id in c.acked { AppliedMoves(c, id, f); } else { UnresolvedMoves(c, id, f); }
  }

  /** The same, whatever the fee model knows. */
  lemma ChargedMoves(c: Core, r: Core, id: nat, fee: Option<real>, l: Life, price: real, size: real, taker: bool)
    requires Orderly(c) && !c.fault && id < |c.orders|
    requires fee.None? ==> r == ExpireUnfilled(c, id) && l == Lapse(LifeOf(c, id))
    requires fee.Some? ==>
               && r == ApplyFill(c.(tradeSeq := c.tradeSeq + 1),
                                 MakeFill(c.orders[id], id, fee.value, price, size, taker, c.tradeSeq + 1))
               && l == Emit(LifeOf(c, id), Some(fee.value), price, size, taker)
    ensures Moved(c, r, id, l)
  {
    if fee.None? { LapseMoves(c, id); } else { PricedMoves(c, id, fee.value, price, size, taker); }
  }

  lemma EmitMoves(c: Core, m: Market, id: nat, price: real, size: real, taker: bool)
    requires Orderly(c) && !c.fault && id < |c.orders|
    ensures Moved(c, EmitFill(c, m, id, price, size, taker), id,
                  Emit(LifeOf(c, id), m.FeeOf(c.orders[id].token), price, size, taker))
  {
    var fee := m.FeeOf(c.orders[id].token);
    ChargedMoves(c, EmitFill(c, m, id, price, size, taker), id, fee,
                 Emit(LifeOf(c, id), fee, price, size, taker), price, size, taker);
  }

  lemma EmitKeepsTerms(l: Life, fee: Option<real>, price: real, size: real, taker: bool)
    requires l.order.seen == {}
    ensures SameTracking(l, Emit(l, fee, price, size, taker)) && Emit(l, fee, price, size, taker).order.seen == {}
  {
  }

  lemma {:induction false} EmitAllMoves(c: Core, m: Market, id: nat, quotes: seq<Quote>)
    requires Orderly(c) && !c.fault && id < |c.orders|
    ensures Moved(c, EmitAll(c, m, id, quotes), id, EmitQuotes(LifeOf(c, id), m.FeeOf(c.orders[id].token), quotes))
    decreases quotes
  {
    if quotes != [] {
      var fee := m.FeeOf(c.orders[id].token);
      var q, l := quotes[0], LifeOf(c, id);
      EmitMoves(c, m, id, q.price, q.size, true);
      EmitKeepsTerms(l, fee, q.price, q.size, true);
      var c1, l1 := EmitFill(c, m, id, q.price, q.size, true), Emit(l, fee, q.price, q.size, true);
      if !c1.fault {
        EmitAllMoves(c1, m, id, quotes[1..]);
        MovedTwice(c, c1, EmitAll(c1, m, id, quotes[1..]), id, l1, EmitQuotes(l1, fee, quotes[1..]));
      }
    }
  }

  lemma TakeMoves(c: Core, m: Market, id: nat, b: Book)
    requires Orderly(c) && !c.fault && id < |c.orders|
    ensures Moved(c, TakerFill(c, m, id, b), id, Take(LifeOf(c, id), m.FeeOf(c.orders[id].token), b))
  {
    var fee, l := m.FeeOf(c.orders[id].token), LifeOf(c, id);
    var w := TakerQuotes(c.orders[id], b);
    assert w == TakerQuotes(l.order, b);
    if w.quotes == [] {
      LapseMoves(c, id);
    } else {
      EmitAllMoves(c, m, id, w.quotes);
      var c1, l1 := EmitAll(c, m, id, w.quotes), EmitQuotes(l, fee, w.quotes);
      if !c1.fault && w.remaining > SIZE_TOL {
        LapseMoves(c1, id);
        MovedTwice(c, c1, ExpireUnfilled(c1, id), id, l1, Lapse(l1));
      }
    }
  }

  lemma PutRestMoves(c: Core, r: Rest)
    requires Orderly(c) && !c.fault && r.id < |c.orders|
    ensures Moved(c, c.(resting := PutRest(c.resting, r)), r.id, LifeOf(c, r.id).(rest := Some(r)))
  {
    forall j: nat ensures FindRest(PutRest(c.resting, r), j) == if j == r.id then Some(r) else FindRest(c.resting, j) {
      FindPut(c.resting, r, j);
    }
    FindPut(c.resting, r, r.id);
    RestingOrderly(c, PutRest(c.resting, r));
  }

  /** New resting entries. */
  lemma RestingOrderly(c: Core, rs: seq<Rest>)
    requires Orderly(c) && DistinctRest(rs) && forall x <- rs :: x.id < |c.orders|
    ensures Orderly(c.(resting := rs))
  {
  }

  lemma PopRestMoves(c: Core, id: nat)
    requires Orderly(c) && !c.fault && id < |c.orders|
    ensures Moved(c, c.(resting := PopRest(c.resting, id)), id, LifeOf(c, id).(rest := None))
  {
    forall j: nat ensures FindRest(PopRest(c.resting, id), j) == if j == id then None else FindRest(c.resting, j) {
      FindPop(c.resting, id, j);
    }
    FindPop(c.resting, id, id);
  }

  lemma LandMoves(c: Core, m: Market, p: Pending)
    requires Orderly(c) && !c.fault && p.id < |c.orders|
    ensures var token := c.orders[p.id].token;
            Moved(c, Arrive(c, m, p), p.id, Land(LifeOf(c, p.id), m.BookOf(token), m.FeeOf(token), p.due))
  {
    var o := c.orders[p.id];
    var book := m.BookOf(o.token);
    if book.None? || book.value.dirty {
      LapseMoves(c, p.id);
    } else if o.tif in {FAK, FOK} || Crosses(o, book.value) {
      TakeMoves(c, m, p.id, book.value);
      assert Crosses(o, book.value) == Crosses(LifeOf(c, p.id).order, book.value);
    } else {
      PutRestMoves(c, Rest(p.id, SizeAt(book.value.Of(o.side), o.price), p.due, o.size));
      assert Crosses(o, book.value) == Crosses(LifeOf(c, p.id).order, book.value);
    }
  }

  lemma WithoutMoves(c: Core, id: nat)
    requires Orderly(c) && !c.fault && id < |c.orders|
    ensures Moved(c, c.(places := Without(c.places, id)), id, LifeOf(c, id).(places := []))
  {
    forall j: nat ensures Of(Without(c.places, id), j) == if j == id then [] else Of(c.places, j) {
      OfWithout(c.places, id, j);
    }
    WithoutKnown(c.places, id, |c.orders|);
  }

  lemma {:induction false} WithoutKnown(ps: seq<Pending>, id: nat, n: nat)
    requires KnownIds(ps, n)
    ensures KnownIds(Without(ps, id), n)
  {
    if ps != [] {
      assert ps[0] in ps && forall p <- ps[1..] :: p in ps;
      WithoutKnown(ps[1..], id, n);
    }
  }

  lemma DropMoves(c: Core, id: nat)
    requires Orderly(c) && !c.fault && id < |c.orders|
    ensures Moved(c, ArriveCancel(c, id), id, Drop(LifeOf(c, id)))
  {
    var l := LifeOf(c, id);
    var c1 := c.(resting := PopRest(c.resting, id));
    var c2 := c1.(places := Without(c.places, id));
    PopRestMoves(c, id);
    WithoutMoves(c1, id);
    MovedTwice(c, c1, c2, id, l.(rest := None), l.(rest := None, places := []));
    OfWithout(c.places, id, id);
    ShiftMoves(c2, id, Canceled);
    MovedTwice(c, c2, Move(c2, id, Canceled), id, l.(rest := None, places := []), Shift(l.(rest := None, places := []), Canceled));
  }

  lemma TapeMoves(c: Core, m: Market, id: nat, tp: Print)
    requires Orderly(c) && !c.fault && id < |c.orders|
    ensures Moved(c, TapeOne(c, m, id, tp), id, Tape(LifeOf(c, id), m.FeeOf(c.orders[id].token), tp))
  {
    var l, o, fee := LifeOf(c, id), c.orders[id], m.FeeOf(c.orders[id].token);
    FindRestId(c.resting, id);
    if l.rest.Some? && Through(o, l.rest.value, tp) {
      assert Through(l.order, l.rest.value, tp);
      var r, fill := l.rest.value, TapeFill(l.rest.value, tp.size);
      var c1, l1 := c.(resting := PutRest(c.resting, AfterTape(r, tp.size))), l.(rest := Some(AfterTape(r, tp.size)));
      PutRestMoves(c, AfterTape(r, tp.size));
      if fill > 0.0 {
        EmitMoves(c1, m, id, o.price, fill, false);
        var c2, l2 := EmitFill(c1, m, id, o.price, fill, false), Emit(l1, fee, o.price, fill, false);
        MovedTwice(c, c1, c2, id, l1, l2);
        if !c2.fault && r.remaining - fill <= SIZE_TOL {
          PopRestMoves(c2, id);
          MovedTwice(c, c2, c2.(resting := PopRest(c2.resting, id)), id, l2, l2.(rest := None));
        }
      }
    } else {
      assert l.rest.Some? ==> Through(o, l.rest.value, tp) == Through(l.order, l.rest.value, tp);
    }
  }

  lemma PlaceMoves(c: Core, id: nat, due: int)
    requires Orderly(c) && !c.fault && id < |c.orders|
    ensures Moved(c, c.(places := c.places + [Pending(due, id)], acked := c.acked + {id}), id,
                  LifeOf(c, id).(places := Of(c.places, id) + [due], acked := true))
  {
    forall j: nat ensures Of(c.places + [Pending(due, id)], j) == Of(c.places, j) + if j == id then [due] else [] {
      OfConcat(c.places, [Pending(due, id)], j);
      assert [Pending(due, id)][1..] == [];
    }
  }

  lemma SendMoves(c: Core, id: nat, due: int)
    requires Orderly(c) && !c.fault && id < |c.orders|
    ensures Moved(c, Submit(c, id, due), id, Send(LifeOf(c, id), due))
  {
    var l := LifeOf(c, id);
    ShiftMoves(c, id, Signed);
    var c1, l1 := Move(c, id, Signed), Shift(l, Signed);
    if !c1.fault {
      ShiftMoves(c1, id, Sent);
      var c2, l2 := Move(c1, id, Sent), Shift(l1, Sent);
      MovedTwice(c, c1, c2, id, l1, l2);
      if !c2.fault {
        PlaceMoves(c2, id, due);
        var c3 := c2.(places := c2.places + [Pending(due, id)], acked := c2.acked + {id});
        var l3 := l2.(places := l2.places + [due], acked := true);
        MovedTwice(c, c2, c3, id, l2, l3);
        ShiftMoves(c3, id, Acked);
        MovedTwice(c, c3, Move(c3, id, Acked), id, l3, Shift(l3, Acked));
      }
    }
  }

  lemma AskCancelMoves(c: Core, id: nat, due: int)
    requires Orderly(c) && !c.fault && id < |c.orders|
    ensures Moved(c, RequestCancel(c, id, due), id, AskCancel(LifeOf(c, id), due))
  {
    forall j: nat ensures Of(c.cancels + [Pending(due, id)], j) == Of(c.cancels, j) + if j == id then [due] else [] {
      OfConcat(c.cancels, [Pending(due, id)], j);
      assert [Pending(due, id)][1..] == [];
    }
  }
}
