/** The bounds of single orders through every operation of the order manager and the exchange, exceptions included. */
module CoreBounds {
  import opened Orders
  import opened Books
  import opened Exchange
  import opened OneOrder
  import opened Projection
  import opened NonInterference
  import opened OrderBounds

  ghost predicate CoreBounded(c: Core) {
    && Orderly(c)
    && forall i :: 0 <= i < |c.orders| ==> Within(LifeOf(c, i)) && Tallied(LifeOf(c, i))
  }

  /** Fee rates are fractions and prices on the tick grid; sizes are any. */
  ghost predicate MarketFair(m: Market) {
    && (forall t <- m.fees :: 0.0 <= m.fees[t] <= 1.0)
    && (forall t <- m.books :: BookOnTicks(m.books[t]))
  }

  predicate SameContract(o: Order, p: Order) {
    o.slug == p.slug && o.token == p.token && o.side == p.side && o.price == p.price && o.size == p.size && o.tif == p.tif
  }

  /** From c to r, raising or not: bounds and contracts stand, postings are only added, and none for the quiet orders. */
  ghost predicate Bounds(c: Core, r: Core, quiet: set<nat>) {
    && |r.orders| == |c.orders| && CoreBounded(r) && c.journal <= r.journal && (c.fault ==> r.fault)
    && forall i :: 0 <= i < |c.orders| ==>
         && SameContract(c.orders[i], r.orders[i])
         && (i in quiet ==> FillsOf(r.journal, i) == FillsOf(c.journal, i))
         && (!r.fault && Exact(LifeOf(c, i)) ==> Exact(LifeOf(r, i)))
  }

  lemma BoundsTwice(c: Core, d: Core, r: Core, quiet: set<nat>)
    requires Bounds(c, d, quiet) && Bounds(d, r, quiet)
    ensures Bounds(c, r, quiet)
  {
    forall i | 0 <= i < |c.orders|
      ensures SameContract(c.orders[i], r.orders[i]) && (i in quiet ==> FillsOf(r.journal, i) == FillsOf(c.journal, i))
      ensures !r.fault && Exact(LifeOf(c, i)) ==> Exact(LifeOf(r, i))
    {
      assert SameContract(c.orders[i], d.orders[i]) && SameContract(d.orders[i], r.orders[i]);
    }
  }

  /** One operation on one order. */
  lemma MovedBounds(c: Core, r: Core, id: nat, l: Life, quiet: set<nat>)
    requires CoreBounded(c) && !c.fault && id < |c.orders| && Moved(c, r, id, l) && c.journal <= r.journal
    requires Within(l) && SameContract(LifeOf(c, id).order, l.order) && Tallied(l) && Counted(LifeOf(c, id), l)
    requires id in quiet ==> l.fills == LifeOf(c, id).fills
    ensures Bounds(c, r, quiet)
  {
    forall i | 0 <= i < |c.orders|
      ensures Within(LifeOf(r, i)) && Tallied(LifeOf(r, i)) && SameContract(c.orders[i], r.orders[i])
      ensures i in quiet ==> FillsOf(r.journal, i) == FillsOf(c.journal, i)
      ensures !r.fault && Exact(LifeOf(c, i)) ==> Exact(LifeOf(r, i))
    {
      assert LifeOf(r, i).order == r.orders[i].(seen := {}) && LifeOf(c, i).order == c.orders[i].(seen := {});
      if i == id {
        assert LifeOf(r, id) == l.(raised := false);
        WithinUnraised(l);
      } else {
        assert LifeOf(r, i) == LifeOf(c, i);
      }
    }
  }

  lemma WithinUnraised(l: Life)
    requires Within(l) && Tallied(l)
    ensures Within(l.(raised := false)) && Tallied(l.(raised := false))
  {
  }

  /** Under the same contract, with the same postings, and no further from what the order counts. */
  predicate Unposted(l: Life, r: Life) {
    SameContract(l.order, r.order) && r.fills == l.fills && (Exact(l) ==> Exact(r))
  }

  lemma UnpostedBounds(c: Core, r: Core, quiet: set<nat>)
    requires |r.orders| == |c.orders| && Orderly(r) && c.journal <= r.journal && (c.fault ==> r.fault)
    requires forall i :: 0 <= i < |c.orders| ==>
               Within(LifeOf(r, i)) && Tallied(LifeOf(r, i)) && Unposted(LifeOf(c, i), LifeOf(r, i))
    ensures Bounds(c, r, quiet)
  {
    forall i | 0 <= i < |c.orders|
      ensures SameContract(c.orders[i], r.orders[i]) && FillsOf(r.journal, i) == FillsOf(c.journal, i)
    {
      assert Unposted(LifeOf(c, i), LifeOf(r, i));
    }
  }

  // ---- arrivals

  predicate Awaiting(l: Life) {
    l.places == [] && Untouched(l) && l.order.state == Acked
  }

  ghost predicate ReadyToLand(c: Core, ps: seq<Pending>) {
    && KnownIds(ps, |c.orders|)
    && forall i :: 0 <= i < |c.orders| ==> |Of(ps, i)| <= 1 && (Of(ps, i) != [] ==> Awaiting(LifeOf(c, i)))
  }

  lemma FairFor(c: Core, m: Market, i: nat)
    requires MarketFair(m) && i < |c.orders|
    ensures FeeFair(FeeFor(c, m, i)) && (BookFor(c, m, i).Some? ==> BookOnTicks(BookFor(c, m, i).value))
  {
  }

  lemma ArriveBounds(c: Core, m: Market, p: Pending, quiet: set<nat>)
    requires CoreBounded(c) && !c.fault && MarketFair(m) && p.id < |c.orders| && Awaiting(LifeOf(c, p.id))
    requires p.id in quiet ==> BookFor(c, m, p.id).None?
    ensures Bounds(c, Arrive(c, m, p), quiet)
    ensures Moved(c, Arrive(c, m, p), p.id, Land(LifeOf(c, p.id), BookFor(c, m, p.id), FeeFor(c, m, p.id), p.due))
  {
    FairFor(c, m, p.id);
    LandMoves(c, m, p);
    LandWithin(LifeOf(c, p.id), BookFor(c, m, p.id), FeeFor(c, m, p.id), p.due);
    LandTallied(LifeOf(c, p.id), BookFor(c, m, p.id), FeeFor(c, m, p.id), p.due);
    MovedBounds(c, Arrive(c, m, p), p.id, Land(LifeOf(c, p.id), BookFor(c, m, p.id), FeeFor(c, m, p.id), p.due), quiet);
  }

  lemma StillReady(c: Core, d: Core, ps: seq<Pending>, l: Life)
    requires ps != [] && ReadyToLand(c, ps) && Moved(c, d, ps[0].id, l)
    ensures ReadyToLand(d, ps[1..])
  {
    assert ps[0] in ps && forall p <- ps[1..] :: p in ps;
    forall i | 0 <= i < |c.orders| ensures |Of(ps[1..], i)| <= 1 && (Of(ps[1..], i) != [] ==> Awaiting(LifeOf(d, i))) {
      assert |Of(ps, i)| == |Of(ps[1..], i)| + if ps[0].id == i then 1 else 0;
      if ps[0].id != i {
        assert Of(ps, i) == Of(ps[1..], i) && LifeOf(d, i) == LifeOf(c, i);
      }
    }
  }

  lemma {:induction false} ArriveAllBounds(c: Core, m: Market, ps: seq<Pending>, quiet: set<nat>)
    requires CoreBounded(c) && MarketFair(m) && ReadyToLand(c, ps)
    requires forall i <- quiet :: i < |c.orders| && BookFor(c, m, i).None?
    ensures Bounds(c, ArriveAll(c, m, ps), quiet)
    decreases ps
  {
    if ps != [] && !c.fault {
      var p := ps[0];
      assert p in ps && forall q <- ps[1..] :: q in ps;
      assert |Of(ps, p.id)| > 0;
      ArriveBounds(c, m, p, quiet);
      var c1 := Arrive(c, m, p);
      StillReady(c, c1, ps, Land(LifeOf(c, p.id), BookFor(c, m, p.id), FeeFor(c, m, p.id), p.due));
      forall i | i in quiet ensures BookFor(c1, m, i).None? { assert SameContract(c.orders[i], c1.orders[i]); }
      ArriveAllBounds(c1, m, ps[1..], quiet);
      BoundsTwice(c, c1, ArriveAll(c1, m, ps[1..]), quiet);
    }
  }

  // ---- cancels

  lemma {:induction false} CancelAllDueBounds(c: Core, ps: seq<Pending>, quiet: set<nat>)
    requires CoreBounded(c) && KnownIds(ps, |c.orders|)
    ensures Bounds(c, CancelAllDue(c, ps), quiet)
    decreases ps
  {
    if ps != [] && !c.fault {
      var id := ps[0].id;
      assert ps[0] in ps && forall q <- ps[1..] :: q in ps;
      DropMoves(c, id);
      DropWithin(LifeOf(c, id));
      DropTallied(LifeOf(c, id));
      MovedBounds(c, ArriveCancel(c, id), id, Drop(LifeOf(c, id)), quiet);
      CancelAllDueBounds(ArriveCancel(c, id), ps[1..], quiet);
      BoundsTwice(c, ArriveCancel(c, id), CancelAllDue(ArriveCancel(c, id), ps[1..]), quiet);
    }
  }

  // ---- process_due

  /** Taking lists off the shelf: an order with fewer pending requests is within bounds as before. */
  lemma FewerPending(c: Core, places: seq<Pending>, cancels: seq<Pending>, quiet: set<nat>)
    requires CoreBounded(c) && KnownIds(places, |c.orders|) && KnownIds(cancels, |c.orders|)
    requires forall i :: 0 <= i < |c.orders| ==> |Of(places, i)| <= |Of(c.places, i)|
    ensures Bounds(c, c.(places := places, cancels := cancels), quiet)
  {
    var d := c.(places := places, cancels := cancels);
    forall i | 0 <= i < |c.orders|
      ensures Within(LifeOf(d, i)) && Tallied(LifeOf(d, i)) && Unposted(LifeOf(c, i), LifeOf(d, i))
    {
      Reshelved(c, places, cancels, i);
      FewerOfLife(LifeOf(c, i), LifeOf(d, i));
    }
    ReshelvedOrderly(c, places, cancels);
    UnpostedBounds(c, d, quiet);
  }

  lemma Reshelved(c: Core, places: seq<Pending>, cancels: seq<Pending>, i: nat)
    requires i < |c.orders|
    ensures LifeOf(c.(places := places, cancels := cancels), i)
            == LifeOf(c, i).(places := Of(places, i), cancels := Of(cancels, i))
  {
  }

  lemma ReshelvedOrderly(c: Core, places: seq<Pending>, cancels: seq<Pending>)
    requires Orderly(c) && KnownIds(places, |c.orders|) && KnownIds(cancels, |c.orders|)
    ensures Orderly(c.(places := places, cancels := cancels))
  {
  }

  lemma FewerOfLife(l: Life, r: Life)
    requires Within(l) && Tallied(l) && r == l.(places := r.places, cancels := r.cancels) && |r.places| <= |l.places|
    ensures Within(r) && Tallied(r) && Unposted(l, r)
  {
  }

  lemma {:induction false} TimesSplit(ts: seq<int>, now: int)
    ensures |TimesBy(ts, now)| + |TimesAfter(ts, now)| == |ts|
  {
    if ts != [] { TimesSplit(ts[1..], now); }
  }

  lemma {:induction false} SortKeepsCount(ts: seq<int>)
    ensures |SortTimes(ts)| == |ts|
  {
    if ts != [] {
      SortKeepsCount(ts[1..]);
      InsertCounts(ts[0], SortTimes(ts[1..]));
    }
  }

  lemma {:induction false} InsertCounts(t: int, ts: seq<int>)
    ensures |InsertTime(t, ts)| == |ts| + 1
  {
    if ts != [] && t > ts[0] { InsertCounts(t, ts[1..]); }
  }

  lemma DueReady(c: Core, now: int, quiet: set<nat>)
    requires CoreBounded(c)
    ensures var d := c.(places := DueAfter(c.places, now));
            Bounds(c, d, quiet) && ReadyToLand(d, ByDue(DueBy(c.places, now)))
  {
    var d, ps := c.(places := DueAfter(c.places, now)), ByDue(DueBy(c.places, now));
    DueIds(c.places, now, |c.orders|);
    forall i | 0 <= i < |c.orders|
      ensures |Of(d.places, i)| <= |Of(c.places, i)|
      ensures |Of(ps, i)| <= 1 && (Of(ps, i) != [] ==> Awaiting(LifeOf(d, i)))
    {
      OfDue(c.places, now, i);
      OfSorted(DueBy(c.places, now), i);
      TimesSplit(Of(c.places, i), now);
      SortKeepsCount(TimesBy(Of(c.places, i), now));
      assert Within(LifeOf(c, i)) && Tallied(LifeOf(c, i));
    }
    FewerPending(c, d.places, c.cancels, quiet);
  }

  lemma ProcessDueBounds(c: Core, m: Market, now: int, quiet: set<nat>)
    requires CoreBounded(c) && !c.fault && MarketFair(m)
    requires forall i <- quiet :: i < |c.orders| && BookFor(c, m, i).None?
    ensures Bounds(c, ProcessDue(c, m, now), quiet)
  {
    var d := c.(places := DueAfter(c.places, now));
    DueReady(c, now, quiet);
    ArriveAllBounds(d, m, ByDue(DueBy(c.places, now)), quiet);
    BoundsTwice(c, d, ProcessPlaces(c, m, now), quiet);
    var c1 := ProcessPlaces(c, m, now);
    if !c1.fault {
      var c2 := c1.(cancels := DueAfter(c1.cancels, now));
      DueIds(c1.cancels, now, |c1.orders|);
      FewerPending(c1, c1.places, c2.cancels, quiet);
      CancelAllDueBounds(c2, ByDue(DueBy(c1.cancels, now)), quiet);
      BoundsTwice(c1, c2, ProcessDue(c, m, now), quiet);
      BoundsTwice(c, c1, ProcessDue(c, m, now), quiet);
    }
  }

  // ---- the tape

  lemma TapeOneBounds(c: Core, m: Market, id: nat, tp: Print, quiet: set<nat>)
    requires CoreBounded(c) && !c.fault && MarketFair(m) && id < |c.orders|
    requires id in quiet ==> c.orders[id].token != tp.token
    requires c.orders[id].token == tp.token ==> FeeFor(c, m, id).Some?
    ensures Bounds(c, TapeOne(c, m, id, tp), quiet) && !TapeOne(c, m, id, tp).fault
  {
    FairFor(c, m, id);
    TapeMoves(c, m, id, tp);
    TapeWithin(LifeOf(c, id), FeeFor(c, m, id), tp);
    TapeTallied(LifeOf(c, id), FeeFor(c, m, id), tp);
    MovedBounds(c, TapeOne(c, m, id, tp), id, Tape(LifeOf(c, id), FeeFor(c, m, id), tp), quiet);
  }

  lemma {:induction false} TapeAllBounds(c: Core, m: Market, ids: seq<nat>, tp: Print, quiet: set<nat>)
    requires CoreBounded(c) && MarketFair(m) && forall id <- ids :: id < |c.orders|
    requires forall i <- quiet :: i < |c.orders| && c.orders[i].token != tp.token
    requires m.FeeOf(tp.token).Some? || forall i :: 0 <= i < |c.orders| ==> c.orders[i].token != tp.token
    ensures Bounds(c, TapeAll(c, m, ids, tp), quiet) && (!c.fault ==> !TapeAll(c, m, ids, tp).fault)
    decreases ids
  {
    if ids != [] && !c.fault {
      var id := ids[0];
      assert id in ids && forall x <- ids[1..] :: x in ids;
      TapeOneBounds(c, m, id, tp, quiet);
      var c1 := TapeOne(c, m, id, tp);
      forall i | i in quiet ensures c1.orders[i].token != tp.token { assert SameContract(c.orders[i], c1.orders[i]); }
      forall i | 0 <= i < |c1.orders| ensures c1.orders[i].token == c.orders[i].token { assert SameContract(c.orders[i], c1.orders[i]); }
      TapeAllBounds(c1, m, ids[1..], tp, quiet);
      BoundsTwice(c, c1, TapeAll(c1, m, ids[1..], tp), quiet);
    }
  }

  // ---- requests

  lemma SubmitBounds(c: Core, id: nat, due: int, quiet: set<nat>)
    requires CoreBounded(c) && !c.fault && id < |c.orders|
    ensures Bounds(c, Submit(c, id, due), quiet)
  {
    SendMoves(c, id, due);
    SendBounds(LifeOf(c, id), due);
    SubmitPostsNothing(c, id, due);
    MovedBounds(c, Submit(c, id, due), id, Send(LifeOf(c, id), due), quiet);
  }

  lemma SendBounds(l: Life, due: int)
    requires Within(l) && Tallied(l) && !l.raised
    ensures var r := Send(l, due); Within(r) && Tallied(r) && Counted(l, r) && SameContract(l.order, r.order) && r.fills == l.fills
  {
    SendWithin(l, due);
    SendTallied(l, due);
  }

  lemma SubmitPostsNothing(c: Core, id: nat, due: int)
    requires id < |c.orders|
    ensures Submit(c, id, due).journal == c.journal
  {
  }

  lemma RequestCancelBounds(c: Core, id: nat, due: int, quiet: set<nat>)
    requires CoreBounded(c) && !c.fault && id < |c.orders|
    ensures Bounds(c, RequestCancel(c, id, due), quiet)
  {
    AskCancelMoves(c, id, due);
    MovedBounds(c, RequestCancel(c, id, due), id, AskCancel(LifeOf(c, id), due), quiet);
  }

  lemma CancelAllBounds(c: Core, slug: string, now: int, lag: nat -> nat, quiet: set<nat>)
    requires CoreBounded(c) && !c.fault
    ensures Bounds(c, CancelAll(c, slug, now, lag), quiet)
  {
    var r := CancelAll(c, slug, now, lag);
    CancelAllProjects(c, slug, now, lag);
    forall i | 0 <= i < |c.orders|
      ensures Within(LifeOf(r, i)) && Tallied(LifeOf(r, i)) && Unposted(LifeOf(c, i), LifeOf(r, i))
    {
      CancelAllUnposted(LifeOf(c, i), slug, now + lag(i));
    }
    UnpostedBounds(c, r, quiet);
  }

  lemma CancelAllUnposted(l: Life, slug: string, due: int)
    requires Within(l) && Tallied(l)
    ensures var r := AskCancelAll(l, slug, due); Within(r) && Tallied(r) && Unposted(l, r)
  {
    AskCancelAllWithin(l, slug, due);
  }

  lemma DraftedBounds(c: Core, o: Order)
    requires CoreBounded(c) && !c.fault && Priced(o) && o == NewOrder(o.slug, o.token, o.side, o.price, o.size, o.tif)
    ensures CoreBounded(Drafted(c, o)) && !Drafted(c, o).fault
  {
    DraftedProjects(c, o);
  }
}
