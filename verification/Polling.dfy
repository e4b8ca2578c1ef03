/** Exactly when process_due does not care how often it is polled. */
module Polling {
  import opened Grid
  import opened Orders
  import opened Books
  import opened Matching
  import opened Exchange
  import opened Projection
  import opened OneOrder
  import opened Joining
  import opened NonInterference
  import opened Trading
  import opened TradingInvariant

  // ---- the due lists split at any earlier time

  lemma {:induction false} InsertEarly(p: Pending, s: seq<Pending>, t: seq<Pending>)
    requires forall q <- t :: p.due <= q.due
    ensures InsertDue(p, s + t) == InsertDue(p, s) + t
  {
    if s == [] {
      assert s + t == t && [p] + s == [p];
      if t != [] { assert t[0] in t; }
    } else {
      assert (s + t)[0] == s[0] && (s + t)[1..] == s[1..] + t;
      if p.due > s[0].due { InsertEarly(p, s[1..], t); }
    }
  }

  lemma {:induction false} InsertLate(p: Pending, s: seq<Pending>, t: seq<Pending>)
    requires forall q <- s :: q.due < p.due
    ensures InsertDue(p, s + t) == s + InsertDue(p, t)
  {
    if s == [] {
      assert s + t == t;
    } else {
      assert (s + t)[0] == s[0] && (s + t)[1..] == s[1..] + t;
      assert s[0] in s && forall q <- s[1..] :: q in s;
      InsertLate(p, s[1..], t);
    }
  }

  lemma {:induction false} SortedMembers(ps: seq<Pending>)
    ensures forall q :: q in ByDue(ps) <==> q in ps
  {
    if ps != [] {
      SortedMembers(ps[1..]);
      InsertMembers(ps[0], ByDue(ps[1..]));
      assert ps == [ps[0]] + ps[1..];
    }
  }

  lemma {:induction false} InsertMembers(p: Pending, ps: seq<Pending>)
    ensures forall q :: q in InsertDue(p, ps) <==> q == p || q in ps
  {
    if ps != [] && p.due > ps[0].due {
      InsertMembers(p, ps[1..]);
      assert ps == [ps[0]] + ps[1..];
    }
  }

  lemma {:induction false} DueMembers(ps: seq<Pending>, now: int)
    ensures forall q :: q in DueBy(ps, now) <==> q in ps && q.due <= now
    ensures forall q :: q in DueAfter(ps, now) <==> q in ps && q.due > now
  {
    if ps != [] {
      DueMembers(ps[1..], now);
      assert ps == [ps[0]] + ps[1..];
    }
  }

  lemma {:induction false} DueSplit(ps: seq<Pending>, a: int, b: int)
    requires a <= b
    ensures DueAfter(DueAfter(ps, a), b) == DueAfter(ps, b)
    ensures ByDue(DueBy(ps, b)) == ByDue(DueBy(ps, a)) + ByDue(DueBy(DueAfter(ps, a), b))
  {
    if ps != [] {
      var h, t := ps[0], ps[1..];
      DueSplit(t, a, b);
      var s1, s2 := ByDue(DueBy(t, a)), ByDue(DueBy(DueAfter(t, a), b));
      if h.due <= a {
        SortedMembers(DueBy(DueAfter(t, a), b));
        DueMembers(DueAfter(t, a), b);
        DueMembers(t, a);
        InsertEarly(h, s1, s2);
        assert ([h] + DueBy(t, a))[1..] == DueBy(t, a) && ([h] + DueBy(t, b))[1..] == DueBy(t, b);
      } else {
        assert ([h] + DueAfter(t, a))[1..] == DueAfter(t, a);
        if h.due <= b {
          SortedMembers(DueBy(t, a));
          DueMembers(t, a);
          InsertLate(h, s1, s2);
          assert ([h] + DueBy(t, b))[1..] == DueBy(t, b);
          assert ([h] + DueBy(DueAfter(t, a), b))[1..] == DueBy(DueAfter(t, a), b);
        }
      }
    }
  }

  // ---- arrivals do not look at what is still pending

  lemma {:induction false} EmitAllPending(c: Core, m: Market, id: nat, quotes: seq<Quote>, ps: seq<Pending>, cs: seq<Pending>)
    requires id < |c.orders|
    ensures EmitAll(c.(places := ps, cancels := cs), m, id, quotes) == EmitAll(c, m, id, quotes).(places := ps, cancels := cs)
    decreases quotes
  {
    if quotes != [] && !c.fault {
      var q := quotes[0];
      var c1 := EmitFill(c, m, id, q.price, q.size, true);
      assert EmitFill(c.(places := ps, cancels := cs), m, id, q.price, q.size, true) == c1.(places := ps, cancels := cs);
      EmitAllPending(c1, m, id, quotes[1..], ps, cs);
    }
  }

  lemma TakerPending(c: Core, m: Market, id: nat, b: Book, ps: seq<Pending>, cs: seq<Pending>)
    requires id < |c.orders|
    ensures TakerFill(c.(places := ps, cancels := cs), m, id, b) == TakerFill(c, m, id, b).(places := ps, cancels := cs)
  {
    EmitAllPending(c, m, id, TakerQuotes(c.orders[id], b).quotes, ps, cs);
  }

  lemma ArrivePending(c: Core, m: Market, p: Pending, ps: seq<Pending>, cs: seq<Pending>)
    requires p.id < |c.orders|
    ensures Arrive(c.(places := ps, cancels := cs), m, p) == Arrive(c, m, p).(places := ps, cancels := cs)
  {
    var book := m.BookOf(c.orders[p.id].token);
    if book.Some? { TakerPending(c, m, p.id, book.value, ps, cs); }
  }

  lemma {:induction false} ArriveAllPending(c: Core, m: Market, xs: seq<Pending>, ps: seq<Pending>, cs: seq<Pending>)
    requires KnownIds(xs, |c.orders|)
    ensures ArriveAll(c.(places := ps, cancels := cs), m, xs) == ArriveAll(c, m, xs).(places := ps, cancels := cs)
    decreases xs
  {
    if xs != [] && !c.fault {
      assert xs[0] in xs && forall x <- xs[1..] :: x in xs;
      ArrivePending(c, m, xs[0], ps, cs);
      ArriveAllPending(Arrive(c, m, xs[0]), m, xs[1..], ps, cs);
    }
  }

  lemma {:induction false} ArriveAllConcat(c: Core, m: Market, xs: seq<Pending>, ys: seq<Pending>)
    requires KnownIds(xs, |c.orders|) && KnownIds(ys, |c.orders|)
    ensures KnownIds(xs + ys, |c.orders|)
    ensures ArriveAll(c, m, xs + ys) == ArriveAll(ArriveAll(c, m, xs), m, ys)
    decreases xs
  {
    if xs == [] {
      assert xs + ys == ys;
    } else if !c.fault {
      assert xs[0] in xs && forall x <- xs[1..] :: x in xs;
      assert (xs + ys)[0] == xs[0] && (xs + ys)[1..] == xs[1..] + ys;
      ArriveAllConcat(Arrive(c, m, xs[0]), m, xs[1..], ys);
    }
  }

  lemma {:induction false} CancelAllConcat(c: Core, xs: seq<Pending>, ys: seq<Pending>)
    requires KnownIds(xs, |c.orders|) && KnownIds(ys, |c.orders|)
    ensures KnownIds(xs + ys, |c.orders|)
    ensures CancelAllDue(c, xs + ys) == CancelAllDue(CancelAllDue(c, xs), ys)
    decreases xs
  {
    if xs == [] {
      assert xs + ys == ys;
    } else if !c.fault {
      assert xs[0] in xs && forall x <- xs[1..] :: x in xs;
      assert (xs + ys)[0] == xs[0] && (xs + ys)[1..] == xs[1..] + ys;
      CancelAllConcat(ArriveCancel(c, xs[0].id), xs[1..], ys);
    }
  }

  // ---- a cancel of one order commutes with the arrival of another

  /** What a cancel leaves of the order it hits. */
  function AfterCancel(o: Order): Order {
    if o.Terminal() then o else o.(state := Canceled)
  }

  predicate Cancelable(o: Order) {
    o.Terminal() || o.CanBecome(Canceled)
  }

  function Struck(c: Core, id: nat): Core
    requires id < |c.orders|
  {
    c.(orders := c.orders[id := AfterCancel(c.orders[id])], resting := PopRest(c.resting, id))
  }

  lemma {:induction false} WithoutNone(ps: seq<Pending>, id: nat)
    requires !HasPending(ps, id)
    ensures Without(ps, id) == ps
  {
    if ps != [] {
      assert ps[0] in ps && forall p <- ps[1..] :: p in ps;
      WithoutNone(ps[1..], id);
    }
  }

  /** What a cancel that does not raise does: the order struck, and no place left. */
  lemma CancelStrikes(c: Core, id: nat)
    requires id < |c.orders| && !c.fault
    ensures ArriveCancel(c, id).fault <==> !Cancelable(c.orders[id])
    ensures !ArriveCancel(c, id).fault ==> ArriveCancel(c, id) == Struck(c, id).(places := Without(c.places, id))
  {
    if c.orders[id].Terminal() { assert c.orders[id := c.orders[id]] == c.orders; }
  }

  lemma {:induction false} PopPut(rs: seq<Rest>, r: Rest, id: nat)
    requires r.id != id
    ensures PopRest(PutRest(rs, r), id) == PutRest(PopRest(rs, id), r)
  {
    if rs != [] {
      if rs[0].id == r.id {
        assert ([r] + rs[1..])[1..] == rs[1..];
        assert PopRest(rs, id) == [rs[0]] + PopRest(rs[1..], id);
        assert ([rs[0]] + PopRest(rs[1..], id))[1..] == PopRest(rs[1..], id);
      } else {
        PopPut(rs[1..], r, id);
        assert ([rs[0]] + PutRest(rs[1..], r))[1..] == PutRest(rs[1..], r);
        if rs[0].id != id {
          assert ([rs[0]] + PopRest(rs[1..], id))[1..] == PopRest(rs[1..], id);
        }
      }
    }
  }

  lemma ExpireStruck(c: Core, i: nat, id: nat)
    requires i < |c.orders| && id < |c.orders| && i != id
    ensures ExpireUnfilled(Struck(c, id), i) == Struck(ExpireUnfilled(c, i), id)
  {
    assert c.orders[id := AfterCancel(c.orders[id])][i := c.orders[i].(state := Expired)]
           == c.orders[i := c.orders[i].(state := Expired)][id := AfterCancel(c.orders[id])];
  }

  lemma EmitStruck(c: Core, m: Market, i: nat, price: real, size: real, id: nat)
    requires i < |c.orders| && id < |c.orders| && i != id
    ensures EmitFill(Struck(c, id), m, i, price, size, true) == Struck(EmitFill(c, m, i, price, size, true), id)
  {
    var fee := m.FeeOf(c.orders[i].token);
    ExpireStruck(c, i, id);
    if fee.Some? {
      var d := Deliver(c.orders[i], MakeFill(c.orders[i], i, fee.value, price, size, true, c.tradeSeq + 1));
      assert c.orders[id := AfterCancel(c.orders[id])][i := d.order] == c.orders[i := d.order][id := AfterCancel(c.orders[id])];
    }
  }

  lemma {:induction false} EmitAllStruck(c: Core, m: Market, i: nat, quotes: seq<Quote>, id: nat)
    requires i < |c.orders| && id < |c.orders| && i != id
    ensures EmitAll(Struck(c, id), m, i, quotes) == Struck(EmitAll(c, m, i, quotes), id)
    decreases quotes
  {
    if quotes != [] && !c.fault {
      EmitStruck(c, m, i, quotes[0].price, quotes[0].size, id);
      EmitAllStruck(EmitFill(c, m, i, quotes[0].price, quotes[0].size, true), m, i, quotes[1..], id);
    }
  }

  lemma TakerStruck(c: Core, m: Market, i: nat, b: Book, id: nat)
    requires i < |c.orders| && id < |c.orders| && i != id
    ensures TakerFill(Struck(c, id), m, i, b) == Struck(TakerFill(c, m, i, b), id)
  {
    var w := TakerQuotes(c.orders[i], b);
    ExpireStruck(c, i, id);
    EmitAllStruck(c, m, i, w.quotes, id);
    ExpireStruck(EmitAll(c, m, i, w.quotes), i, id);
  }

  lemma RestStruck(c: Core, m: Market, i: nat, b: Book, arrival: int, id: nat)
    requires i < |c.orders| && id < |c.orders| && i != id
    ensures RestMaker(Struck(c, id), m, i, b, arrival) == Struck(RestMaker(c, m, i, b, arrival), id)
  {
    var o := c.orders[i];
    TakerStruck(c, m, i, b, id);
    PopPut(c.resting, Rest(i, SizeAt(b.Of(o.side), o.price), arrival, o.size), id);
  }

  lemma ArriveStruck(c: Core, m: Market, p: Pending, id: nat)
    requires p.id < |c.orders| && id < |c.orders| && p.id != id
    ensures Arrive(Struck(c, id), m, p) == Struck(Arrive(c, m, p), id)
  {
    var book := m.BookOf(c.orders[p.id].token);
    ExpireStruck(c, p.id, id);
    if book.Some? {
      TakerStruck(c, m, p.id, book.value, id);
      RestStruck(c, m, p.id, book.value, p.due, id);
    }
  }

  lemma {:induction false} ArriveAllStruck(c: Core, m: Market, ps: seq<Pending>, id: nat)
    requires KnownIds(ps, |c.orders|) && id < |c.orders| && !HasPending(ps, id)
    ensures ArriveAll(Struck(c, id), m, ps) == Struck(ArriveAll(c, m, ps), id)
    ensures ArriveAll(c, m, ps).orders[id] == c.orders[id]
    decreases ps
  {
    if ps != [] && !c.fault {
      assert ps[0] in ps && forall p <- ps[1..] :: p in ps;
      ArriveStruck(c, m, ps[0], id);
      ArriveKeepsOthers(c, m, ps[0], id);
      ArriveAllStruck(Arrive(c, m, ps[0]), m, ps[1..], id);
    }
  }

  lemma {:induction false} EmitAllKeepsOthers(c: Core, m: Market, i: nat, quotes: seq<Quote>, id: nat)
    requires i < |c.orders| && id < |c.orders| && i != id
    ensures EmitAll(c, m, i, quotes).orders[id] == c.orders[id]
    decreases quotes
  {
    if quotes != [] && !c.fault {
      EmitAllKeepsOthers(EmitFill(c, m, i, quotes[0].price, quotes[0].size, true), m, i, quotes[1..], id);
    }
  }

  lemma TakerKeepsOthers(c: Core, m: Market, i: nat, b: Book, id: nat)
    requires i < |c.orders| && id < |c.orders| && i != id
    ensures TakerFill(c, m, i, b).orders[id] == c.orders[id]
  {
    EmitAllKeepsOthers(c, m, i, TakerQuotes(c.orders[i], b).quotes, id);
  }

  lemma ArriveKeepsOthers(c: Core, m: Market, p: Pending, id: nat)
    requires p.id < |c.orders| && id < |c.orders| && p.id != id
    ensures Arrive(c, m, p).orders[id] == c.orders[id]
  {
    var book := m.BookOf(c.orders[p.id].token);
    if book.Some? { TakerKeepsOthers(c, m, p.id, book.value, id); }
  }

  // ---- an order that would only rest may arrive before its cancel, or never

  predicate SameButRest(c: Core, d: Core, id: nat) {
    c == d.(resting := c.resting) && PopRest(c.resting, id) == PopRest(d.resting, id)
  }

  lemma {:induction false} EmitAllRest(c: Core, m: Market, id: nat, quotes: seq<Quote>, rs: seq<Rest>)
    requires id < |c.orders|
    ensures EmitAll(c.(resting := rs), m, id, quotes) == EmitAll(c, m, id, quotes).(resting := rs)
    ensures EmitAll(c, m, id, quotes).resting == c.resting
    decreases quotes
  {
    if quotes != [] && !c.fault {
      var q := quotes[0];
      assert EmitFill(c.(resting := rs), m, id, q.price, q.size, true) == EmitFill(c, m, id, q.price, q.size, true).(resting := rs);
      EmitAllRest(EmitFill(c, m, id, q.price, q.size, true), m, id, quotes[1..], rs);
    }
  }

  lemma TakerRest(c: Core, m: Market, id: nat, b: Book, rs: seq<Rest>)
    requires id < |c.orders|
    ensures TakerFill(c.(resting := rs), m, id, b) == TakerFill(c, m, id, b).(resting := rs)
    ensures TakerFill(c, m, id, b).resting == c.resting
  {
    EmitAllRest(c, m, id, TakerQuotes(c.orders[id], b).quotes, rs);
  }

  lemma RestSame(c: Core, d: Core, m: Market, i: nat, b: Book, arrival: int, id: nat)
    requires SameButRest(c, d, id) && i < |c.orders| && i != id
    ensures SameButRest(RestMaker(c, m, i, b, arrival), RestMaker(d, m, i, b, arrival), id)
  {
    var o := d.orders[i];
    TakerRest(d, m, i, b, c.resting);
    var entry := Rest(i, SizeAt(b.Of(o.side), o.price), arrival, o.size);
    PopPut(c.resting, entry, id);
    PopPut(d.resting, entry, id);
  }

  lemma ArriveSame(c: Core, d: Core, m: Market, p: Pending, id: nat)
    requires SameButRest(c, d, id) && p.id < |c.orders| && p.id != id
    ensures SameButRest(Arrive(c, m, p), Arrive(d, m, p), id)
  {
    var book := m.BookOf(d.orders[p.id].token);
    if book.Some? {
      TakerRest(d, m, p.id, book.value, c.resting);
      RestSame(c, d, m, p.id, book.value, p.due, id);
    }
  }

  lemma {:induction false} PopPutSame(rs: seq<Rest>, r: Rest)
    ensures PopRest(PutRest(rs, r), r.id) == PopRest(rs, r.id)
  {
    if rs != [] {
      if rs[0].id == r.id {
        assert ([r] + rs[1..])[1..] == rs[1..];
      } else {
        PopPutSame(rs[1..], r);
        assert ([rs[0]] + PutRest(rs[1..], r))[1..] == PutRest(rs[1..], r);
      }
    }
  }

  /** The arrival of a joining order is its entry and nothing else. */
  lemma JoinIsEntry(c: Core, m: Market, p: Pending)
    requires p.id < |c.orders| && Joins(c.orders[p.id], BookFor(c, m, p.id))
    ensures SameButRest(Arrive(c, m, p), c, p.id) && Arrive(c, m, p).orders == c.orders
  {
    var o, book := c.orders[p.id], BookFor(c, m, p.id).value;
    PopPutSame(c.resting, Rest(p.id, SizeAt(book.Of(o.side), o.price), p.due, o.size));
  }

  /** A batch with and without the arrivals of one joining order. */
  lemma {:induction false} ArriveAllSame(c: Core, d: Core, m: Market, ps: seq<Pending>, id: nat)
    requires SameButRest(c, d, id) && KnownIds(ps, |c.orders|) && id < |c.orders|
    requires HasPending(ps, id) ==> Joins(c.orders[id], BookFor(c, m, id))
    ensures KnownIds(Without(ps, id), |c.orders|)
    ensures SameButRest(ArriveAll(c, m, ps), ArriveAll(d, m, Without(ps, id)), id)
    ensures ArriveAll(c, m, ps).orders[id] == c.orders[id]
    decreases ps
  {
    WithoutKnown(ps, id, |c.orders|);
    if ps != [] && !c.fault {
      var p := ps[0];
      assert p in ps && forall x <- ps[1..] :: x in ps;
      if p.id == id {
        JoinIsEntry(c, m, p);
        assert SameButRest(Arrive(c, m, p), d, id);
        ArriveAllSame(Arrive(c, m, p), d, m, ps[1..], id);
      } else {
        ArriveSame(c, d, m, p, id);
        ArriveKeepsOthers(c, m, p, id);
        ArriveAllSame(Arrive(c, m, p), Arrive(d, m, p), m, ps[1..], id);
        assert ([p] + Without(ps[1..], id))[1..] == Without(ps[1..], id);
      }
    }
  }

  // ---- an early batch of cancels against a late batch of places

  lemma {:induction false} WithoutMembers(ps: seq<Pending>, id: nat)
    ensures forall p :: p in Without(ps, id) <==> p in ps && p.id != id
  {
    if ps != [] {
      WithoutMembers(ps[1..], id);
      assert ps == [ps[0]] + ps[1..];
    }
  }

  lemma WithoutGone(ps: seq<Pending>, id: nat)
    ensures !HasPending(Without(ps, id), id)
    ensures forall x: nat :: HasPending(Without(ps, id), x) ==> HasPending(ps, x)
  {
    WithoutMembers(ps, id);
  }

  /** A cancel after a batch of arrivals, or before it with the order's own arrival left out. */
  lemma CancelThrough(c: Core, m: Market, ps: seq<Pending>, id: nat)
    requires !c.fault && KnownIds(ps, |c.orders|) && id < |c.orders|
    requires HasPending(ps, id) ==> Joins(c.orders[id], BookFor(c, m, id))
    requires !ArriveCancel(ArriveAll(c, m, ps), id).fault && !ArriveAll(c, m, ps).fault
    ensures KnownIds(Without(ps, id), |c.orders|) && !ArriveCancel(c, id).fault
    ensures ArriveCancel(ArriveAll(c, m, ps), id) == ArriveAll(ArriveCancel(c, id), m, Without(ps, id))
  {
    var r, rest, places := ArriveAll(c, m, ps), Without(ps, id), Without(c.places, id);
    ArriveAllSame(c, c, m, ps, id);
    CancelStrikes(r, id);
    CancelStrikes(c, id);
    WithoutGone(ps, id);
    ArriveAllStruck(c, m, rest, id);
    ArriveAllPending(Struck(c, id), m, rest, places, c.cancels);
  }

  function WithoutAll(ps: seq<Pending>, cs: seq<Pending>): seq<Pending>
    decreases cs
  {
    if cs == [] then ps else WithoutAll(Without(ps, cs[0].id), cs[1..])
  }

  lemma {:induction false} WithoutAllKnown(ps: seq<Pending>, cs: seq<Pending>, n: nat)
    requires KnownIds(ps, n)
    ensures KnownIds(WithoutAll(ps, cs), n)
    decreases cs
  {
    if cs != [] {
      WithoutKnown(ps, cs[0].id, n);
      WithoutAllKnown(Without(ps, cs[0].id), cs[1..], n);
    }
  }

  /** Every order of the batch that a cancel of the list concerns would only rest. */
  ghost predicate OnlyJoiners(c: Core, m: Market, ps: seq<Pending>, cs: seq<Pending>) {
    forall q <- cs :: HasPending(ps, q.id) ==> q.id < |c.orders| && Joins(c.orders[q.id], BookFor(c, m, q.id))
  }

  lemma {:induction false} CancelsThrough(c: Core, m: Market, ps: seq<Pending>, cs: seq<Pending>)
    requires !c.fault && KnownIds(ps, |c.orders|) && KnownIds(cs, |c.orders|) && OnlyJoiners(c, m, ps, cs)
    requires !CancelAllDue(ArriveAll(c, m, ps), cs).fault
    ensures KnownIds(WithoutAll(ps, cs), |c.orders|) && !CancelAllDue(c, cs).fault
    ensures CancelAllDue(ArriveAll(c, m, ps), cs) == ArriveAll(CancelAllDue(c, cs), m, WithoutAll(ps, cs))
    decreases cs
  {
    if cs != [] {
      var id := cs[0].id;
      assert cs[0] in cs && forall q <- cs[1..] :: q in cs;
      CancelThrough(c, m, ps, id);
      var c1, ps1 := ArriveCancel(c, id), Without(ps, id);
      CancelStrikes(c, id);
      WithoutGone(ps, id);
      forall q | q in cs[1..] && HasPending(ps1, q.id) ensures Joins(c1.orders[q.id], BookFor(c1, m, q.id)) {
        assert q.id != id && HasPending(ps, q.id);
      }
      CancelsThrough(c1, m, ps1, cs[1..]);
    }
  }

  /** Cancels do the same whatever is pending, and take their own orders' places off the list. */
  lemma {:induction false} CancelsPending(c: Core, cs: seq<Pending>, ps: seq<Pending>, ks: seq<Pending>)
    requires !c.fault && KnownIds(cs, |c.orders|) && !CancelAllDue(c, cs).fault
    ensures CancelAllDue(c.(places := ps, cancels := ks), cs)
            == CancelAllDue(c, cs).(places := WithoutAll(ps, cs), cancels := ks)
    ensures CancelAllDue(c, cs).cancels == c.cancels
    decreases cs
  {
    if cs != [] {
      var id := cs[0].id;
      assert cs[0] in cs && forall q <- cs[1..] :: q in cs;
      CancelStrikes(c, id);
      CancelStrikes(c.(places := ps, cancels := ks), id);
      CancelsPending(ArriveCancel(c, id), cs[1..], Without(ps, id), ks);
    }
  }

  // ---- leaving orders out of the due lists

  lemma {:induction false} DueWithout(ps: seq<Pending>, now: int, id: nat)
    ensures DueBy(Without(ps, id), now) == Without(DueBy(ps, now), id)
    ensures DueAfter(Without(ps, id), now) == Without(DueAfter(ps, now), id)
  {
    if ps != [] {
      DueWithout(ps[1..], now, id);
      assert ([ps[0]] + Without(ps[1..], id))[1..] == Without(ps[1..], id);
      assert ([ps[0]] + DueBy(ps[1..], now))[1..] == DueBy(ps[1..], now);
      assert ([ps[0]] + DueAfter(ps[1..], now))[1..] == DueAfter(ps[1..], now);
    }
  }

  lemma {:induction false} WithoutAfter(ps: seq<Pending>, id: nat, due: int)
    requires forall q <- ps :: due <= q.due
    ensures forall q <- Without(ps, id) :: due <= q.due
  {
    if ps != [] {
      assert ps[0] in ps && forall q <- ps[1..] :: q in ps;
      WithoutAfter(ps[1..], id, due);
    }
  }

  lemma {:induction false} InsertWithout(p: Pending, ps: seq<Pending>, id: nat)
    requires Ascending(ps)
    ensures Without(InsertDue(p, ps), id) == if p.id == id then Without(ps, id) else InsertDue(p, Without(ps, id))
  {
    if ps == [] || p.due <= ps[0].due {
      assert ([p] + ps)[1..] == ps;
      assert forall q <- ps :: p.due <= q.due by {
        forall q | q in ps ensures p.due <= q.due { if ps != [] { assert ps[0].due <= q.due; } }
      }
      WithoutAfter(ps, id, p.due);
      var rest := Without(ps, id);
      assert rest != [] ==> rest[0] in rest;
    } else {
      InsertWithout(p, ps[1..], id);
      assert ([ps[0]] + InsertDue(p, ps[1..]))[1..] == InsertDue(p, ps[1..]);
      assert ([ps[0]] + Without(ps[1..], id))[1..] == Without(ps[1..], id);
      if ps[0].id == id && p.id != id {
        assert Without(ps, id) == Without(ps[1..], id);
      }
    }
  }

  lemma {:induction false} SortWithout(ps: seq<Pending>, id: nat)
    ensures ByDue(Without(ps, id)) == Without(ByDue(ps), id)
  {
    if ps != [] {
      SortWithout(ps[1..], id);
      OfSorted(ps[1..], id);
      InsertWithout(ps[0], ByDue(ps[1..]), id);
      assert ([ps[0]] + Without(ps[1..], id))[1..] == Without(ps[1..], id);
    }
  }

  lemma {:induction false} DueWithoutAll(ps: seq<Pending>, now: int, cs: seq<Pending>)
    ensures ByDue(DueBy(WithoutAll(ps, cs), now)) == WithoutAll(ByDue(DueBy(ps, now)), cs)
    ensures DueAfter(WithoutAll(ps, cs), now) == WithoutAll(DueAfter(ps, now), cs)
    decreases cs
  {
    if cs != [] {
      DueWithout(ps, now, cs[0].id);
      SortWithout(DueBy(ps, now), cs[0].id);
      DueWithoutAll(Without(ps, cs[0].id), now, cs[1..]);
    }
  }

  // ---- one poll more or less

  /** One process_due, with the pending lists put aside. */
  function Processed(c: Core, m: Market, ps: seq<Pending>, cs: seq<Pending>): Core
    requires KnownIds(ps, |c.orders|) && KnownIds(cs, |c.orders|)
  {
    CancelAllDue(ArriveAll(c, m, ps), cs)
  }

  lemma ProcessDueIs(c: Core, m: Market, now: int)
    requires Indexed(c)
    ensures KnownIds(ByDue(DueBy(c.places, now)), |c.orders|) && KnownIds(ByDue(DueBy(c.cancels, now)), |c.orders|)
    ensures var r := Processed(c.(places := DueAfter(c.places, now), cancels := DueAfter(c.cancels, now)), m,
                               ByDue(DueBy(c.places, now)), ByDue(DueBy(c.cancels, now)));
            && (ProcessDue(c, m, now).fault <==> r.fault)
            && (!r.fault ==> ProcessDue(c, m, now) == r)
  {
    var ps := ByDue(DueBy(c.places, now));
    DueIds(c.places, now, |c.orders|);
    DueIds(c.cancels, now, |c.orders|);
    ArriveAllPending(c.(places := DueAfter(c.places, now)), m, ps, DueAfter(c.places, now), DueAfter(c.cancels, now));
  }

  /** Every order with a cancel due by a whose place falls due after that and by b would only rest. */
  ghost predicate Harmless(c: Core, m: Market, a: int, b: int) {
    forall q <- c.cancels, p <- c.places :: q.id == p.id && q.due <= a < p.due <= b ==>
      p.id < |c.orders| && Joins(c.orders[p.id], BookFor(c, m, p.id))
  }

  ghost predicate SinglePlaced(c: Core) {
    forall i: nat :: |Of(c.places, i)| <= 1
  }

  /** An early batch of cancels may run before the late batch of places it does not stop, or after the whole of it. */
  lemma Interchange(c: Core, m: Market, pa: seq<Pending>, pb: seq<Pending>, ca: seq<Pending>, cb: seq<Pending>)
    requires KnownIds(pa, |c.orders|) && KnownIds(pb, |c.orders|) && KnownIds(ca, |c.orders|) && KnownIds(cb, |c.orders|)
    requires !c.fault && OnlyJoiners(ArriveAll(c, m, pa), m, pb, ca)
    ensures KnownIds(pa + pb, |c.orders|) && KnownIds(ca + cb, |c.orders|) && KnownIds(WithoutAll(pb, ca), |c.orders|)
    ensures var all := Processed(c, m, pa + pb, ca + cb);
            !all.fault ==>
              !Processed(c, m, pa, ca).fault && all == Processed(Processed(c, m, pa, ca), m, WithoutAll(pb, ca), cb)
  {
    var x := ArriveAll(c, m, pa);
    ArriveAllConcat(c, m, pa, pb);
    CancelAllConcat(ArriveAll(x, m, pb), ca, cb);
    WithoutAllKnown(pb, ca, |c.orders|);
    if !Processed(c, m, pa + pb, ca + cb).fault { CancelsThrough(x, m, pb, ca); }
  }

  lemma {:induction false} PlacedOnce(ps: seq<Pending>, p: Pending, q: Pending)
    requires p in ps && q in ps && p.id == q.id && |Of(ps, p.id)| <= 1
    ensures p == q
  {
    assert ps == [ps[0]] + ps[1..];
    assert HasPending(ps[1..], p.id) <==> Of(ps[1..], p.id) != [] by { OfWithout(ps[1..], p.id, p.id); }
    if ps[0].id != p.id { PlacedOnce(ps[1..], p, q); }
  }

  /** After the places due by a, the orders overtaken by a cancel are as they were. */
  lemma OvertakenJoin(c: Core, m: Market, a: int, b: int)
    requires Orderly(c) && !c.fault && SinglePlaced(c) && Harmless(c, m, a, b) && a <= b
    requires var base := c.(places := DueAfter(c.places, b), cancels := DueAfter(c.cancels, b));
             KnownIds(ByDue(DueBy(c.places, a)), |c.orders|)
    ensures var base := c.(places := DueAfter(c.places, b), cancels := DueAfter(c.cancels, b));
            OnlyJoiners(ArriveAll(base, m, ByDue(DueBy(c.places, a))), m,
                        ByDue(DueBy(DueAfter(c.places, a), b)), ByDue(DueBy(c.cancels, a)))
  {
    var base := c.(places := DueAfter(c.places, b), cancels := DueAfter(c.cancels, b));
    var pa, pb, ca := ByDue(DueBy(c.places, a)), ByDue(DueBy(DueAfter(c.places, a), b)), ByDue(DueBy(c.cancels, a));
    SortedMembers(DueBy(c.places, a));
    SortedMembers(DueBy(DueAfter(c.places, a), b));
    SortedMembers(DueBy(c.cancels, a));
    DueMembers(c.places, a);
    DueMembers(DueAfter(c.places, a), b);
    DueMembers(c.cancels, a);
    forall q | q in ca && HasPending(pb, q.id)
      ensures q.id < |c.orders| && Joins(ArriveAll(base, m, pa).orders[q.id], BookFor(ArriveAll(base, m, pa), m, q.id))
    {
      var p :| p in pb && p.id == q.id;
      if HasPending(pa, q.id) {
        var x :| x in pa && x.id == q.id;
        PlacedOnce(c.places, x, p);
        assert false;
      }
      ArriveAllStruck(base, m, pa, q.id);
    }
  }

  /** Processing at a, put in terms of the lists put aside until b. */
  lemma EarlyIs(c: Core, m: Market, a: int, b: int)
    requires Orderly(c) && !c.fault && a <= b
    requires var base := c.(places := DueAfter(c.places, b), cancels := DueAfter(c.cancels, b));
             && KnownIds(ByDue(DueBy(c.places, a)), |c.orders|) && KnownIds(ByDue(DueBy(c.cancels, a)), |c.orders|)
             && !Processed(base, m, ByDue(DueBy(c.places, a)), ByDue(DueBy(c.cancels, a))).fault
    ensures var base := c.(places := DueAfter(c.places, b), cancels := DueAfter(c.cancels, b));
            var ca := ByDue(DueBy(c.cancels, a));
            && !ProcessDue(c, m, a).fault
            && ProcessDue(c, m, a) == Processed(base, m, ByDue(DueBy(c.places, a)), ca)
                                      .(places := WithoutAll(DueAfter(c.places, a), ca), cancels := DueAfter(c.cancels, a))
            && Processed(base, m, ByDue(DueBy(c.places, a)), ca).places == WithoutAll(DueAfter(c.places, b), ca)
            && Processed(base, m, ByDue(DueBy(c.places, a)), ca).cancels == DueAfter(c.cancels, b)
  {
    var base := c.(places := DueAfter(c.places, b), cancels := DueAfter(c.cancels, b));
    var pa, ca := ByDue(DueBy(c.places, a)), ByDue(DueBy(c.cancels, a));
    var places, cancels := DueAfter(c.places, a), DueAfter(c.cancels, a);
    ProcessDueIs(c, m, a);
    ArriveAllPending(base, m, pa, places, cancels);
    var x := ArriveAll(base, m, pa);
    CancelsPending(x, ca, places, cancels);
    CancelsPending(x, ca, x.places, x.cancels);
    assert x.(places := x.places, cancels := x.cancels) == x;
  }

  /** process_due at an earlier time first makes no difference if every overtaken order would only rest: the same
      orders, fills and trade ids. */
  lemma PollingIrrelevant(c: Core, m: Market, a: int, b: int)
    requires Orderly(c) && !c.fault && SinglePlaced(c) && a <= b && Harmless(c, m, a, b)
    requires !ProcessDue(c, m, b).fault
    ensures var early := ProcessDue(c, m, a);
            !early.fault && Orderly(early) && ProcessDue(early, m, b) == ProcessDue(c, m, b)
  {
    var pa, ca := ByDue(DueBy(c.places, a)), ByDue(DueBy(c.cancels, a));
    var places, cancels := DueAfter(c.places, a), DueAfter(c.cancels, a);
    var pb, cb := ByDue(DueBy(places, b)), ByDue(DueBy(cancels, b));
    var base := c.(places := DueAfter(c.places, b), cancels := DueAfter(c.cancels, b));
    DueSplit(c.places, a, b);
    DueSplit(c.cancels, a, b);
    ProcessDueIs(c, m, a);
    ProcessDueIs(c, m, b);
    DueIds(c.places, a, |c.orders|);
    DueIds(c.cancels, a, |c.orders|);
    DueIds(places, b, |c.orders|);
    DueIds(cancels, b, |c.orders|);
    OvertakenJoin(c, m, a, b);
    Interchange(base, m, pa, pb, ca, cb);
    EarlyIs(c, m, a, b);
    ProcessDueProjects(c, m, a);
    DueWithoutAll(places, b, ca);
    ProcessDueIs(ProcessDue(c, m, a), m, b);
  }

  // ---- and only then

  /** What each order can meet in the market is usable. */
  ghost predicate UsableMarket(c: Core, m: Market) {
    forall i :: 0 <= i < |c.orders| ==> Usable(BookFor(c, m, i), FeeFor(c, m, i))
  }

  lemma {:induction false} OfMember(ps: seq<Pending>, p: Pending)
    requires p in ps
    ensures p.due in Of(ps, p.id)
  {
    assert ps == [ps[0]] + ps[1..];
    if p != ps[0] { OfMember(ps[1..], p); }
  }

  lemma OnePlaceDue(l: Life, book: Option<Book>, fee: Option<real>, due: int, b: int)
    requires l.places == [due] && due <= b && !l.raised
    ensures PlacesDue(l, book, fee, b) == Land(l.(places := []), book, fee, due)
  {
    SingleTime(l.places, b);
    assert TimesBy(l.places, b) == [due] && [due][1..] == [];
    var l1 := Land(l.(places := []), book, fee, due);
    assert LandAll(l1, book, fee, []) == l1;
  }

  /** Polled late, an overtaken order that does not join ends FILLED or EXPIRED. */
  lemma LateEnd(l: Life, book: Option<Book>, fee: Option<real>, due: int, b: int)
    requires Coupled(l) && Usable(book, fee) && l.places == [due] && due <= b && !Joins(l.order, book)
    ensures Elapse(l, book, fee, b).order.state in {Filled, Expired}
  {
    var l0 := l.(places := []);
    var l1 := Land(l0, book, fee, due);
    RestsWhen(l0, book, fee, due);
    OnePlaceDue(l, book, fee, due, b);
    DropTerminal(l1.(cancels := TimesAfter(l1.cancels, b)), SortTimes(TimesBy(l1.cancels, b)));
  }

  /** Polled early, it is cancelled before it arrives, and stays so. */
  lemma EarlyEnd(l: Life, book: Option<Book>, fee: Option<real>, due: int, a: int, b: int)
    requires Coupled(l) && l.places == [due] && a < due && TimesBy(l.cancels, a) != []
    ensures var e := Elapse(l, book, fee, a);
            && e.order.state == Canceled && e.places == [] && e.rest.None? && !e.raised
            && Elapse(e, book, fee, b).order.state == Canceled
  {
    SingleTime(l.places, a);
    var dues := SortTimes(TimesBy(l.cancels, a));
    SortTimesEmpty(TimesBy(l.cancels, a));
    var l1 := l.(cancels := TimesAfter(l.cancels, a));
    assert PlacesDue(l, book, fee, a) == l;
    var l2 := Drop(l1);
    DropTerminal(l2, dues[1..]);
    var e := Elapse(l, book, fee, a);
    assert PlacesDue(e, book, fee, b) == e;
    DropTerminal(e.(cancels := TimesAfter(e.cancels, b)), SortTimes(TimesBy(e.cancels, b)));
  }

  lemma CoupledPlaces(c: Core)
    requires CoreOk(c)
    ensures SinglePlaced(c)
  {
    forall i: nat ensures |Of(c.places, i)| <= 1 {
      if i < |c.orders| { assert Coupled(LifeOf(c, i)); } else { UnknownPlaces(c.places, |c.orders|, i); }
    }
  }

  lemma {:induction false} UnknownPlaces(ps: seq<Pending>, n: nat, i: nat)
    requires KnownIds(ps, n) && n <= i
    ensures Of(ps, i) == []
  {
    if ps != [] {
      assert ps[0] in ps && forall p <- ps[1..] :: p in ps;
      UnknownPlaces(ps[1..], n, i);
    }
  }

  /** An earlier poll raises only where the later one would. */
  lemma EarlyPollSafe(c: Core, m: Market, a: int, b: int)
    requires CoreOk(c) && UsableMarket(c, m) && a <= b && !ProcessDue(c, m, b).fault
    ensures !ProcessDue(c, m, a).fault
  {
    ProcessDueProjects(c, m, a);
    ProcessDueProjects(c, m, b);
    if ProcessDue(c, m, a).fault {
      var i :| 0 <= i < |c.orders| && Elapse(LifeOf(c, i), BookFor(c, m, i), FeeFor(c, m, i), a).raised;
      assert Coupled(LifeOf(c, i));
      ElapseCoupled(LifeOf(c, i), BookFor(c, m, i), FeeFor(c, m, i), a);
      ElapseCoupled(LifeOf(c, i), BookFor(c, m, i), FeeFor(c, m, i), b);
      DueEarlier(LifeOf(c, i).cancels, a, b);
      assert false;
    }
  }

  lemma {:induction false} DueEarlier(ts: seq<int>, a: int, b: int)
    requires a <= b && TimesBy(ts, a) != []
    ensures TimesBy(ts, b) != []
  {
    if ts[0] > a { DueEarlier(ts[1..], a, b); }
  }

  /** An overtaken order that would not join makes the two polls differ. */
  lemma OvertakenDiffers(c: Core, m: Market, a: int, b: int, q: Pending, p: Pending)
    requires CoreOk(c) && UsableMarket(c, m) && a <= b && !ProcessDue(c, m, b).fault
    requires q in c.cancels && p in c.places && q.id == p.id && q.due <= a < p.due <= b
    requires p.id < |c.orders| && !Joins(c.orders[p.id], BookFor(c, m, p.id))
    ensures !ProcessDue(c, m, a).fault && Orderly(ProcessDue(c, m, a))
    ensures ProcessDue(ProcessDue(c, m, a), m, b) != ProcessDue(c, m, b)
  {
    var i := p.id;
    EarlyPollSafe(c, m, a, b);
    ProcessDueProjects(c, m, a);
    OfMember(c.places, p);
    assert Coupled(LifeOf(c, i)) && LifeOf(c, i).places == [p.due];
    PolledOnce(c, m, b, i, p.due);
    OfMember(c.cancels, q);
    DueMeans(c.cancels, a, i);
    PolledTwice(c, m, a, b, i, p.due);
  }

  lemma PolledOnce(c: Core, m: Market, b: int, i: nat, due: int)
    requires Orderly(c) && !c.fault && !ProcessDue(c, m, b).fault && i < |c.orders| && Coupled(LifeOf(c, i))
    requires Usable(BookFor(c, m, i), FeeFor(c, m, i)) && LifeOf(c, i).places == [due] && due <= b
    requires !Joins(c.orders[i], BookFor(c, m, i))
    ensures i < |ProcessDue(c, m, b).orders| && ProcessDue(c, m, b).orders[i].state in {Filled, Expired}
  {
    ProcessDueProjects(c, m, b);
    LateEnd(LifeOf(c, i), BookFor(c, m, i), FeeFor(c, m, i), due, b);
    assert LifeOf(ProcessDue(c, m, b), i).order.state == ProcessDue(c, m, b).orders[i].state;
  }

  lemma PolledTwice(c: Core, m: Market, a: int, b: int, i: nat, due: int)
    requires Orderly(c) && !c.fault && !ProcessDue(c, m, a).fault && i < |c.orders| && Coupled(LifeOf(c, i))
    requires LifeOf(c, i).places == [due] && a < due && TimesBy(LifeOf(c, i).cancels, a) != []
    ensures var early := ProcessDue(c, m, a);
            Orderly(early) && i < |ProcessDue(early, m, b).orders|
            && (!ProcessDue(early, m, b).fault ==> ProcessDue(early, m, b).orders[i].state == Canceled)
  {
    var l, book, fee := LifeOf(c, i), BookFor(c, m, i), FeeFor(c, m, i);
    ProcessDueProjects(c, m, a);
    EarlyEnd(l, book, fee, due, a, b);
    var early := ProcessDue(c, m, a);
    assert LifeOf(early, i).order.token == early.orders[i].token;
    ElapseContract(l, book, fee, a);
    ProcessDueProjects(early, m, b);
    var both := ProcessDue(early, m, b);
    if !both.fault { assert LifeOf(both, i).order.state == both.orders[i].state; }
  }

  /** Exactly when an earlier poll makes no difference: when every order with a cancel due by a whose place falls due
      after that and by b would only rest. */
  lemma PollingIff(c: Core, m: Market, a: int, b: int)
    requires CoreOk(c) && UsableMarket(c, m) && a <= b && !ProcessDue(c, m, b).fault
    ensures var early := ProcessDue(c, m, a);
            && !early.fault && Orderly(early)
            && (ProcessDue(early, m, b) == ProcessDue(c, m, b) <==> Harmless(c, m, a, b))
  {
    EarlyPollSafe(c, m, a, b);
    ProcessDueProjects(c, m, a);
    if Harmless(c, m, a, b) {
      CoupledPlaces(c);
      PollingIrrelevant(c, m, a, b);
    } else {
      var q, p :| q in c.cancels && p in c.places && q.id == p.id && q.due <= a < p.due <= b
                  && !(p.id < |c.orders| && Joins(c.orders[p.id], BookFor(c, m, p.id)));
      OvertakenDiffers(c, m, a, b, q, p);
    }
  }

  /** Every cancel pending is due no earlier than the pending place of its order. */
  ghost predicate CancelsFollowPlaces(c: Core) {
    forall q <- c.cancels, p <- c.places :: q.id == p.id ==> p.due <= q.due
  }

  /** In particular when no cancel overtakes the place of its order. */
  lemma OrderedCancelsPoll(c: Core, m: Market, a: int, b: int)
    requires Orderly(c) && !c.fault && SinglePlaced(c) && a <= b
    requires CancelsFollowPlaces(c)
    requires !ProcessDue(c, m, b).fault
    ensures var early := ProcessDue(c, m, a);
            !early.fault && Orderly(early) && ProcessDue(early, m, b) == ProcessDue(c, m, b)
  {
    PollingIrrelevant(c, m, a, b);
  }

  const LATE_ORDER: Order := NewOrder("w", "up", Buy, 0.5, 1.0, GTC)

  const LATE_ACKED: Order := LATE_ORDER.(state := Acked, cancelRequested := true)

  /** A cancel due at 10, between two polls, of an order whose place is due at 20, on a market without books. */
  function Overtaken(): Core {
    RequestCancel(Submit(Drafted(EMPTY, LATE_ORDER), 0, 20), 0, 10)
  }

  lemma OnePending(p: Pending, now: int)
    ensures DueBy([p], now) == (if p.due <= now then [p] else [])
    ensures DueAfter([p], now) == (if p.due <= now then [] else [p])
    ensures ByDue([p]) == [p] && ByDue([]) == []
  {
    assert DueBy([], now) == [] && DueAfter([], now) == [];
    assert ByDue([]) == [];
  }

  lemma PolledLate(m: Market)
    requires m == Market(map[], map[])
    ensures Indexed(Overtaken()) && !ProcessDue(Overtaken(), m, 20).fault
    ensures ProcessDue(Overtaken(), m, 20).orders == [LATE_ACKED.(state := Expired)]
  {
    var c := Overtaken();
    assert c.places == [Pending(20, 0)] && c.cancels == [Pending(10, 0)] && c.orders == [LATE_ACKED];
    OnePending(Pending(20, 0), 20);
    OnePending(Pending(10, 0), 20);
    ProcessDueIs(c, m, 20);
    ExpiresThenCancels(c.(places := [], cancels := []), m);
  }

  lemma ExpiresThenCancels(c: Core, m: Market)
    requires m == Market(map[], map[]) && c == EMPTY.(orders := [LATE_ACKED], acked := {0})
    ensures Processed(c, m, [Pending(20, 0)], [Pending(10, 0)]) == c.(orders := [LATE_ACKED.(state := Expired)])
  {
    assert [Pending(20, 0)][1..] == [] && [Pending(10, 0)][1..] == [];
    var d := c.(orders := [LATE_ACKED.(state := Expired)]);
    assert Arrive(c, m, Pending(20, 0)) == d;
    assert ArriveAll(c, m, [Pending(20, 0)]) == d;
    assert ArriveCancel(d, 0) == d;
  }

  lemma PolledEarly(m: Market)
    requires m == Market(map[], map[])
    ensures Indexed(Overtaken())
    ensures ProcessDue(Overtaken(), m, 10) == Overtaken().(orders := [LATE_ACKED.(state := Canceled)], places := [], cancels := [])
  {
    var c := Overtaken();
    assert c.places == [Pending(20, 0)] && c.cancels == [Pending(10, 0)] && c.orders == [LATE_ACKED];
    OnePending(Pending(20, 0), 10);
    OnePending(Pending(10, 0), 10);
    assert [Pending(10, 0)][1..] == [];
    assert ProcessPlaces(c, m, 10) == c;
    assert Without([Pending(20, 0)], 0) == [];
    assert ArriveCancel(c.(cancels := []), 0) == c.(orders := [LATE_ACKED.(state := Canceled)], places := [], cancels := []);
  }

  lemma PolledBoth(m: Market)
    requires m == Market(map[], map[])
    ensures Indexed(Overtaken()) && Indexed(ProcessDue(Overtaken(), m, 10))
    ensures ProcessDue(ProcessDue(Overtaken(), m, 10), m, 20).orders == [LATE_ACKED.(state := Canceled)]
  {
    PolledEarly(m);
    var e := ProcessDue(Overtaken(), m, 10);
    assert ProcessPlaces(e, m, 20) == e;
    assert ProcessCancels(e, 20) == e;
  }

  /** Without the hypothesis polling matters: polled early the order ends canceled, polled late expired. */
  lemma OvertakingMatters()
    ensures var c, m := Overtaken(), Market(map[], map[]);
            && Orderly(c) && !c.fault && !ProcessDue(c, m, 20).fault && Indexed(ProcessDue(c, m, 10))
            && ProcessDue(ProcessDue(c, m, 10), m, 20).orders[0].state == Canceled
            && ProcessDue(c, m, 20).orders[0].state == Expired
  {
    PolledLate(Market(map[], map[]));
    PolledEarly(Market(map[], map[]));
    PolledBoth(Market(map[], map[]));
  }
}
