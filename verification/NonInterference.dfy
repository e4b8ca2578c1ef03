/** The operations that touch many orders at once, projected on each of them. */
module NonInterference {
  import opened Grid
  import opened Orders
  import opened Books
  import opened Matching
  import opened Exchange
  import opened OneOrder
  import opened Projection

  /** Order id's own part of a market. */
  function BookFor(c: Core, m: Market, id: nat): Option<Book>
    requires id < |c.orders|
  {
    m.BookOf(c.orders[id].token)
  }

  function FeeFor(c: Core, m: Market, id: nat): Option<real>
    requires id < |c.orders|
  {
    m.FeeOf(c.orders[id].token)
  }

  lemma LandKeepsTerms(l: Life, book: Option<Book>, fee: Option<real>, due: int)
    requires l.order.seen == {}
    ensures SameTerms(l.order, Land(l, book, fee, due).order)
  {
    if book.Some? {
      TakeKeepsTerms(l, fee, book.value);
    }
  }

  lemma TakeKeepsTerms(l: Life, fee: Option<real>, b: Book)
    requires l.order.seen == {}
    ensures SameTerms(l.order, Take(l, fee, b).order)
  {
    EmitQuotesKeepsTerms(l, fee, TakerQuotes(l.order, b).quotes);
  }

  lemma {:induction false} EmitQuotesKeepsTerms(l: Life, fee: Option<real>, quotes: seq<Quote>)
    requires l.order.seen == {}
    ensures SameTerms(l.order, EmitQuotes(l, fee, quotes).order)
    decreases quotes
  {
    if quotes != [] && !l.raised {
      EmitKeepsTerms(l, fee, quotes[0].price, quotes[0].size, true);
      EmitQuotesKeepsTerms(Emit(l, fee, quotes[0].price, quotes[0].size, true), fee, quotes[1..]);
    }
  }

  /** Arrivals: each order sees its own due places, in its own due order. */
  lemma {:induction false} ArrivalsProject(c: Core, m: Market, ps: seq<Pending>)
    requires Orderly(c) && !c.fault && KnownIds(ps, |c.orders|)
    ensures var r := ArriveAll(c, m, ps);
            && (!r.fault ==> Orderly(r) && forall i :: 0 <= i < |c.orders| ==>
                  LifeOf(r, i) == LandAll(LifeOf(c, i), BookFor(c, m, i), FeeFor(c, m, i), Of(ps, i)))
            && (r.fault ==> exists i | 0 <= i < |c.orders| ::
                  LandAll(LifeOf(c, i), BookFor(c, m, i), FeeFor(c, m, i), Of(ps, i)).raised)
    decreases ps
  {
    if ps != [] {
      var p := ps[0];
      assert p in ps && forall q <- ps[1..] :: q in ps;
      LandMoves(c, m, p);
      LandKeepsTerms(LifeOf(c, p.id), BookFor(c, m, p.id), FeeFor(c, m, p.id), p.due);
      var c1 := Arrive(c, m, p);
      assert Of(ps, p.id) == [p.due] + Of(ps[1..], p.id);
      if c1.fault {
        assert LandAll(LifeOf(c, p.id), BookFor(c, m, p.id), FeeFor(c, m, p.id), Of(ps, p.id)).raised;
      } else {
        forall i | 0 <= i < |c.orders|
          ensures LandAll(LifeOf(c, i), BookFor(c, m, i), FeeFor(c, m, i), Of(ps, i))
                  == LandAll(LifeOf(c1, i), BookFor(c1, m, i), FeeFor(c1, m, i), Of(ps[1..], i))
        {
          assert i != p.id ==> LifeOf(c1, i).order == LifeOf(c, i).order;
        }
        ArrivalsProject(c1, m, ps[1..]);
      }
    }
  }

  lemma {:induction false} CancelsProject(c: Core, ps: seq<Pending>)
    requires Orderly(c) && !c.fault && KnownIds(ps, |c.orders|)
    ensures var r := CancelAllDue(c, ps);
            && (!r.fault ==> Orderly(r) && forall i :: 0 <= i < |c.orders| ==>
                  LifeOf(r, i) == DropAll(LifeOf(c, i), Of(ps, i)))
            && (r.fault ==> exists i :: 0 <= i < |c.orders| && DropAll(LifeOf(c, i), Of(ps, i)).raised)
    decreases ps
  {
    if ps != [] {
      var p := ps[0];
      assert p in ps && forall q <- ps[1..] :: q in ps;
      DropMoves(c, p.id);
      var c1 := ArriveCancel(c, p.id);
      assert Of(ps, p.id) == [p.due] + Of(ps[1..], p.id);
      if c1.fault {
        assert DropAll(LifeOf(c, p.id), Of(ps, p.id)).raised;
      } else {
        forall i | 0 <= i < |c.orders|
          ensures DropAll(LifeOf(c, i), Of(ps, i)) == DropAll(LifeOf(c1, i), Of(ps[1..], i))
        {
        }
        CancelsProject(c1, ps[1..]);
      }
    }
  }

  /** The first cancel of a batch is one of order i's. */
  lemma CutHead(l: Life, ps: seq<Pending>, i: nat, k: nat)
    requires ps != [] && ps[0].id == i && k <= |Of(ps[1..], i)| && !l.raised
    ensures k + 1 <= |Of(ps, i)| == |Of(ps[1..], i)| + 1
    ensures DropAll(l, Of(ps, i)[..k + 1]) == DropAll(Drop(l), Of(ps[1..], i)[..k])
  {
    var first := [ps[0].due] + Of(ps[1..], i)[..k];
    assert Of(ps, i)[..k + 1] == first;
    assert first[1..] == Of(ps[1..], i)[..k];
  }

  /** In r the first k of order i's cancels in the batch ps have arrived. */
  ghost predicate CutAt(c: Core, ps: seq<Pending>, i: nat, k: nat, r: Core)
    requires i < |c.orders| == |r.orders|
  {
    && k <= |Of(ps, i)| && (!r.fault ==> k == |Of(ps, i)|)
    && LifeOf(r, i) == DropAll(LifeOf(c, i), Of(ps, i)[..k]).(raised := false)
  }

  lemma CutStep(c: Core, ps: seq<Pending>, i: nat, k: nat, c1: Core, r: Core)
    requires ps != [] && ps[0].id < |c.orders| && i < |c.orders| == |c1.orders| == |r.orders|
    requires Moved(c, c1, ps[0].id, Drop(LifeOf(c, ps[0].id))) && !c1.fault && CutAt(c1, ps[1..], i, k, r)
    ensures CutAt(c, ps, i, if ps[0].id == i then k + 1 else k, r)
  {
    if ps[0].id == i { CutHead(LifeOf(c, i), ps, i, k); }
  }

  lemma CutShort(c: Core, ps: seq<Pending>, i: nat, r: Core)
    requires ps != [] && ps[0].id < |c.orders| && i < |c.orders| == |r.orders|
    requires Moved(c, r, ps[0].id, Drop(LifeOf(c, ps[0].id))) && r.fault
    ensures CutAt(c, ps, i, if ps[0].id == i then 1 else 0, r)
  {
    if ps[0].id == i { CutHead(LifeOf(c, i), ps, i, 0); }
  }

  /** Whether or not a batch of cancels raises: of each order's due cancels a first part arrived, all of them if nothing
      raised. */
  lemma {:induction false} CancelsCut(c: Core, ps: seq<Pending>, i: nat) returns (k: nat)
    requires Orderly(c) && !c.fault && KnownIds(ps, |c.orders|) && i < |c.orders|
    ensures CutAt(c, ps, i, k, CancelAllDue(c, ps))
    decreases ps
  {
    if ps == [] {
      k := 0;
      assert Of(ps, i)[..k] == [];
    } else {
      var p := ps[0];
      assert p in ps && forall q <- ps[1..] :: q in ps;
      DropMoves(c, p.id);
      var c1 := ArriveCancel(c, p.id);
      if c1.fault {
        CutShort(c, ps, i, c1);
        k := if p.id == i then 1 else 0;
        assert CancelAllDue(c, ps) == c1;
      } else {
        var rest := CancelsCut(c1, ps[1..], i);
        CutStep(c, ps, i, rest, c1, CancelAllDue(c1, ps[1..]));
        k := if p.id == i then rest + 1 else rest;
        assert CancelAllDue(c, ps) == CancelAllDue(c1, ps[1..]);
      }
    }
  }

  lemma PlacesProject(c: Core, m: Market, now: int)
    requires Orderly(c) && !c.fault
    ensures var r := ProcessPlaces(c, m, now);
            && (!r.fault ==> Orderly(r) && forall i :: 0 <= i < |c.orders| ==>
                  LifeOf(r, i) == PlacesDue(LifeOf(c, i), BookFor(c, m, i), FeeFor(c, m, i), now))
            && (r.fault ==> exists i | 0 <= i < |c.orders| ::
                  PlacesDue(LifeOf(c, i), BookFor(c, m, i), FeeFor(c, m, i), now).raised)
  {
    var c1, ps := c.(places := DueAfter(c.places, now)), ByDue(DueBy(c.places, now));
    DueIds(c.places, now, |c.orders|);
    forall i | 0 <= i < |c.orders|
      ensures LifeOf(c1, i) == LifeOf(c, i).(places := TimesAfter(LifeOf(c, i).places, now))
      ensures Of(ps, i) == SortTimes(TimesBy(LifeOf(c, i).places, now))
    {
      OfDue(c.places, now, i);
      OfSorted(DueBy(c.places, now), i);
    }
    ArrivalsProject(c1, m, ps);
  }

  lemma CancelsDueProject(c: Core, now: int)
    requires Orderly(c) && !c.fault
    ensures var r := ProcessCancels(c, now);
            && (!r.fault ==> Orderly(r) && forall i :: 0 <= i < |c.orders| ==>
                  LifeOf(r, i) == CancelsDue(LifeOf(c, i), now))
            && (r.fault ==> exists i :: 0 <= i < |c.orders| && CancelsDue(LifeOf(c, i), now).raised)
  {
    var c1, ps := c.(cancels := DueAfter(c.cancels, now)), ByDue(DueBy(c.cancels, now));
    DueIds(c.cancels, now, |c.orders|);
    forall i | 0 <= i < |c.orders|
      ensures LifeOf(c1, i) == LifeOf(c, i).(cancels := TimesAfter(LifeOf(c, i).cancels, now))
      ensures Of(ps, i) == SortTimes(TimesBy(LifeOf(c, i).cancels, now))
    {
      OfDue(c.cancels, now, i);
      OfSorted(DueBy(c.cancels, now), i);
    }
    CancelsProject(c1, ps);
  }

  /** process_due, seen from each order: its own due places, then its own due cancels. */
  lemma ProcessDueProjects(c: Core, m: Market, now: int)
    requires Orderly(c) && !c.fault
    ensures var r := ProcessDue(c, m, now);
            && (!r.fault ==> Orderly(r) && forall i :: 0 <= i < |c.orders| ==>
                  LifeOf(r, i) == Elapse(LifeOf(c, i), BookFor(c, m, i), FeeFor(c, m, i), now))
            && (r.fault ==> exists i | 0 <= i < |c.orders| ::
                  Elapse(LifeOf(c, i), BookFor(c, m, i), FeeFor(c, m, i), now).raised)
  {
    PlacesProject(c, m, now);
    var c1 := ProcessPlaces(c, m, now);
    if c1.fault {
      var i :| 0 <= i < |c.orders| && PlacesDue(LifeOf(c, i), BookFor(c, m, i), FeeFor(c, m, i), now).raised;
      assert Elapse(LifeOf(c, i), BookFor(c, m, i), FeeFor(c, m, i), now).raised;
    } else {
      CancelsDueProject(c1, now);
      if ProcessCancels(c1, now).fault {
        var i :| 0 <= i < |c.orders| && CancelsDue(LifeOf(c1, i), now).raised;
        assert Elapse(LifeOf(c, i), BookFor(c, m, i), FeeFor(c, m, i), now).raised;
      }
    }
  }

  lemma {:induction false} CancelsOrderly(c: Core, ps: seq<Pending>)
    requires Orderly(c) && KnownIds(ps, |c.orders|)
    ensures Orderly(CancelAllDue(c, ps))
    decreases ps
  {
    if ps != [] && !c.fault {
      assert ps[0] in ps && forall q <- ps[1..] :: q in ps;
      DropMoves(c, ps[0].id);
      CancelsOrderly(ArriveCancel(c, ps[0].id), ps[1..]);
    }
  }

  lemma ProcessDueOrderly(c: Core, m: Market, now: int)
    requires Orderly(c)
    ensures Orderly(ProcessDue(c, m, now))
  {
    PlacesOrderly(c, m, now);
    var c1 := ProcessPlaces(c, m, now);
    if !c1.fault {
      DueIds(c1.cancels, now, |c1.orders|);
      CancelsOrderly(c1.(cancels := DueAfter(c1.cancels, now)), ByDue(DueBy(c1.cancels, now)));
    }
  }

  lemma {:induction false} ArrivalsOrderly(c: Core, m: Market, ps: seq<Pending>)
    requires Orderly(c) && KnownIds(ps, |c.orders|)
    ensures Orderly(ArriveAll(c, m, ps))
    decreases ps
  {
    if ps != [] && !c.fault {
      assert ps[0] in ps && forall q <- ps[1..] :: q in ps;
      LandMoves(c, m, ps[0]);
      ArrivalsOrderly(Arrive(c, m, ps[0]), m, ps[1..]);
    }
  }

  lemma {:induction false} TapesOrderly(c: Core, m: Market, ids: seq<nat>, tp: Print)
    requires Orderly(c) && forall id <- ids :: id < |c.orders|
    ensures Orderly(TapeAll(c, m, ids, tp))
    decreases ids
  {
    if ids != [] && !c.fault {
      assert ids[0] in ids && forall x <- ids[1..] :: x in ids;
      TapeMoves(c, m, ids[0], tp);
      TapesOrderly(TapeOne(c, m, ids[0], tp), m, ids[1..], tp);
    }
  }

  // ---- what reaches no part of an order leaves it alone, raising or not

  lemma {:induction false} ArrivalsElsewhere(c: Core, m: Market, ps: seq<Pending>, i: nat)
    requires Orderly(c) && KnownIds(ps, |c.orders|) && i < |c.orders| && Of(ps, i) == []
    ensures LifeOf(ArriveAll(c, m, ps), i) == LifeOf(c, i)
    decreases ps
  {
    if ps != [] && !c.fault {
      assert ps[0] in ps && forall q <- ps[1..] :: q in ps;
      LandMoves(c, m, ps[0]);
      ArrivalsElsewhere(Arrive(c, m, ps[0]), m, ps[1..], i);
    }
  }

  lemma {:induction false} CancelsElsewhere(c: Core, ps: seq<Pending>, i: nat)
    requires Orderly(c) && KnownIds(ps, |c.orders|) && i < |c.orders| && Of(ps, i) == []
    ensures LifeOf(CancelAllDue(c, ps), i) == LifeOf(c, i)
    decreases ps
  {
    if ps != [] && !c.fault {
      assert ps[0] in ps && forall q <- ps[1..] :: q in ps;
      DropMoves(c, ps[0].id);
      CancelsElsewhere(ArriveCancel(c, ps[0].id), ps[1..], i);
    }
  }

  lemma {:induction false} NothingDue(ts: seq<int>, now: int)
    requires TimesBy(ts, now) == []
    ensures TimesAfter(ts, now) == ts
  {
    if ts != [] { NothingDue(ts[1..], now); }
  }

  lemma PlacesElsewhere(c: Core, m: Market, now: int, i: nat)
    requires Orderly(c) && !c.fault && i < |c.orders| && TimesBy(LifeOf(c, i).places, now) == []
    ensures LifeOf(ProcessPlaces(c, m, now), i) == LifeOf(c, i)
  {
    var c1, ps := c.(places := DueAfter(c.places, now)), ByDue(DueBy(c.places, now));
    DueIds(c.places, now, |c.orders|);
    OfDue(c.places, now, i);
    OfSorted(DueBy(c.places, now), i);
    NothingDue(LifeOf(c, i).places, now);
    ArrivalsElsewhere(c1, m, ps, i);
  }

  lemma ElapseElsewhere(c: Core, m: Market, now: int, i: nat)
    requires Orderly(c) && !c.fault && i < |c.orders|
    requires TimesBy(LifeOf(c, i).places, now) == [] && TimesBy(LifeOf(c, i).cancels, now) == []
    ensures LifeOf(ProcessDue(c, m, now), i) == LifeOf(c, i)
  {
    PlacesElsewhere(c, m, now, i);
    var c1 := ProcessPlaces(c, m, now);
    if !c1.fault {
      PlacesOrderly(c, m, now);
      DueIds(c1.cancels, now, |c1.orders|);
      OfDue(c1.cancels, now, i);
      OfSorted(DueBy(c1.cancels, now), i);
      NothingDue(LifeOf(c, i).cancels, now);
      CancelsElsewhere(c1.(cancels := DueAfter(c1.cancels, now)), ByDue(DueBy(c1.cancels, now)), i);
    }
  }

  lemma PlacesOrderly(c: Core, m: Market, now: int)
    requires Orderly(c)
    ensures Orderly(ProcessPlaces(c, m, now))
  {
    DueIds(c.places, now, |c.orders|);
    ArrivalsOrderly(c.(places := DueAfter(c.places, now)), m, ByDue(DueBy(c.places, now)));
  }

  lemma {:induction false} TapesElsewhere(c: Core, m: Market, ids: seq<nat>, tp: Print, i: nat)
    requires Orderly(c) && i < |c.orders| && forall id <- ids :: id < |c.orders|
    requires LifeOf(c, i).rest.None? || c.orders[i].token != tp.token
    ensures LifeOf(TapeAll(c, m, ids, tp), i) == LifeOf(c, i)
    decreases ids
  {
    if ids != [] && !c.fault {
      assert ids[0] in ids && forall x <- ids[1..] :: x in ids;
      TapeMoves(c, m, ids[0], tp);
      var c1 := TapeOne(c, m, ids[0], tp);
      assert LifeOf(c1, i) == LifeOf(c, i) && LifeOf(c1, i).order == c1.orders[i].(seen := {});
      TapesElsewhere(c1, m, ids[1..], tp, i);
    }
  }

  /** process_due for one order when only the first k of its due cancels arrive. */
  function ElapseUpTo(l: Life, book: Option<Book>, fee: Option<real>, now: int, k: nat): Life {
    var l1 := PlacesDue(l, book, fee, now);
    var dues := SortTimes(TimesBy(l1.cancels, now));
    DropAll(l1.(cancels := TimesAfter(l1.cancels, now)), if k <= |dues| then dues[..k] else dues).(raised := false)
  }

  /** process_due, seen from each order, if no place raises: when a cancel does, the cancels after it are lost. */
  lemma ElapseCut(c: Core, m: Market, now: int, i: nat) returns (k: nat)
    requires Orderly(c) && !c.fault && i < |c.orders| && !ProcessPlaces(c, m, now).fault
    ensures LifeOf(ProcessDue(c, m, now), i) == ElapseUpTo(LifeOf(c, i), BookFor(c, m, i), FeeFor(c, m, i), now, k)
    ensures !ProcessDue(c, m, now).fault ==>
              k == |SortTimes(TimesBy(PlacesDue(LifeOf(c, i), BookFor(c, m, i), FeeFor(c, m, i), now).cancels, now))|
  {
    PlacesProject(c, m, now);
    var c1 := ProcessPlaces(c, m, now);
    var c2, ps := c1.(cancels := DueAfter(c1.cancels, now)), ByDue(DueBy(c1.cancels, now));
    DueIds(c1.cancels, now, |c1.orders|);
    OfDue(c1.cancels, now, i);
    OfSorted(DueBy(c1.cancels, now), i);
    assert LifeOf(c2, i) == LifeOf(c1, i).(cancels := TimesAfter(LifeOf(c1, i).cancels, now));
    k := CancelsCut(c2, ps, i);
  }

  ghost predicate DistinctIds(ids: seq<nat>) {
    forall i, j :: 0 <= i < j < |ids| ==> ids[i] != ids[j]
  }

  /** r is c after the print has met the resting entries of exactly the orders ids. */
  ghost predicate Taped(c: Core, m: Market, ids: seq<nat>, tp: Print, r: Core)
    requires |r.orders| == |c.orders| && forall id <- ids :: id < |c.orders|
  {
    && (!r.fault ==> Orderly(r) && forall i :: 0 <= i < |c.orders| ==>
          LifeOf(r, i) == if i in ids then Tape(LifeOf(c, i), FeeFor(c, m, i), tp) else LifeOf(c, i))
    && (r.fault ==> exists i <- ids :: Tape(LifeOf(c, i), FeeFor(c, m, i), tp).raised)
  }

  lemma TapedStep(c: Core, m: Market, id: nat, ids: seq<nat>, tp: Print, c1: Core, r: Core)
    requires id < |c.orders| && id !in ids && (forall x <- ids :: x < |c.orders|) && |r.orders| == |c.orders|
    requires Moved(c, c1, id, Tape(LifeOf(c, id), FeeFor(c, m, id), tp)) && !c1.fault
    requires Taped(c1, m, ids, tp, r)
    ensures Taped(c, m, [id] + ids, tp, r)
  {
    forall i | 0 <= i < |c.orders| && i != id ensures LifeOf(c1, i) == LifeOf(c, i) && FeeFor(c1, m, i) == FeeFor(c, m, i) {
      assert LifeOf(c1, i).order == LifeOf(c, i).order;
    }
    if r.fault {
      var i :| i in ids && Tape(LifeOf(c1, i), FeeFor(c1, m, i), tp).raised;
      assert i in [id] + ids;
    }
  }

  lemma {:induction false} TapeProjects(c: Core, m: Market, ids: seq<nat>, tp: Print)
    requires Orderly(c) && !c.fault && DistinctIds(ids) && forall id <- ids :: id < |c.orders|
    ensures Taped(c, m, ids, tp, TapeAll(c, m, ids, tp))
    decreases ids
  {
    if ids != [] {
      var id := ids[0];
      assert id in ids && forall x <- ids[1..] :: x in ids;
      assert ids == [id] + ids[1..];
      TapeMoves(c, m, id, tp);
      var c1 := TapeOne(c, m, id, tp);
      if !c1.fault {
        TapeProjects(c1, m, ids[1..], tp);
        TapedStep(c, m, id, ids[1..], tp, c1, TapeAll(c1, m, ids[1..], tp));
      }
    }
  }

  /** on_trade, seen from each order: its own resting entry meets the print. */
  lemma OnTradeProjects(c: Core, m: Market, tp: Print)
    requires Orderly(c) && !c.fault
    ensures var r := OnTrade(c, m, tp);
            && (!r.fault ==> Orderly(r) && forall i :: 0 <= i < |c.orders| ==>
                  LifeOf(r, i) == Tape(LifeOf(c, i), FeeFor(c, m, i), tp))
            && (r.fault ==> exists i | 0 <= i < |c.orders| :: Tape(LifeOf(c, i), FeeFor(c, m, i), tp).raised)
  {
    var ids := RestIds(c.resting);
    TapeProjects(c, m, ids, tp);
    forall i | 0 <= i < |c.orders| && i !in ids ensures Tape(LifeOf(c, i), FeeFor(c, m, i), tp) == LifeOf(c, i) {
      FindRestId(c.resting, i);
    }
  }

  /** One resting order more in front. */
  lemma RestFirst(rs: seq<Rest>, id: nat)
    requires rs != [] && DistinctRest(rs)
    ensures DistinctRest(rs[1..]) && (rs[0].id == id ==> FindRest(rs, id).Some? && FindRest(rs[1..], id).None?)
    ensures rs[0].id != id ==> FindRest(rs, id) == FindRest(rs[1..], id)
  {
    if rs[0].id == id { FindRestId(rs[1..], id); }
  }

  lemma {:induction false} CancelRestingOf(rs: seq<Rest>, orders: seq<Order>, slug: string, now: int, lag: nat -> nat, id: nat)
    requires DistinctRest(rs) && id < |orders| && forall r <- rs :: r.id < |orders|
    ensures Of(CancelResting(rs, orders, slug, now, lag), id)
            == if FindRest(rs, id).Some? && orders[id].slug == slug then [now + lag(id)] else []
  {
    if rs != [] {
      assert rs[0] in rs && forall r <- rs[1..] :: r in rs;
      RestFirst(rs, id);
      CancelRestingOf(rs[1..], orders, slug, now, lag, id);
      OfCons(Pending(now + lag(rs[0].id), rs[0].id), CancelResting(rs[1..], orders, slug, now, lag), id);
    }
  }

  lemma {:induction false} CancelPlacesOf(ps: seq<Pending>, orders: seq<Order>, slug: string, now: int, lag: nat -> nat, id: nat)
    requires id < |orders| && KnownIds(ps, |orders|)
    ensures Of(CancelPlaces(ps, orders, slug, now, lag), id)
            == if orders[id].slug == slug then CopyTimes(Of(ps, id), now + lag(id)) else []
  {
    if ps != [] {
      assert ps[0] in ps && forall p <- ps[1..] :: p in ps;
      CancelPlacesOf(ps[1..], orders, slug, now, lag, id);
      OfCons(Pending(now + lag(ps[0].id), ps[0].id), CancelPlaces(ps[1..], orders, slug, now, lag), id);
      if ps[0].id == id { assert ([ps[0].due] + Of(ps[1..], id))[1..] == Of(ps[1..], id); }
    }
  }

  lemma {:induction false} CancelsKnown(ps: seq<Pending>, rs: seq<Rest>, orders: seq<Order>, slug: string, now: int, lag: nat -> nat)
    requires KnownIds(ps, |orders|) && forall r <- rs :: r.id < |orders|
    ensures KnownIds(CancelResting(rs, orders, slug, now, lag), |orders|)
    ensures KnownIds(CancelPlaces(ps, orders, slug, now, lag), |orders|)
    decreases |ps| + |rs|
  {
    if rs != [] {
      assert rs[0] in rs && forall r <- rs[1..] :: r in rs;
      CancelsKnown(ps, rs[1..], orders, slug, now, lag);
    } else if ps != [] {
      assert ps[0] in ps && forall p <- ps[1..] :: p in ps;
      CancelsKnown(ps[1..], rs, orders, slug, now, lag);
    }
  }

  lemma CancelAllOrderly(c: Core, slug: string, now: int, lag: nat -> nat)
    requires Orderly(c)
    ensures Orderly(CancelAll(c, slug, now, lag))
  {
    CancelsKnown(c.places, c.resting, c.orders, slug, now, lag);
    var r := CancelAll(c, slug, now, lag);
    assert Indexed(r);
    assert forall i :: 0 <= i < |c.orders| ==> r.orders[i].seen == c.orders[i].seen && r.orders[i].slug == c.orders[i].slug;
    assert Numbered(r);
  }

  lemma CancelAllLife(c: Core, slug: string, now: int, lag: nat -> nat, i: nat)
    requires Orderly(c) && i < |c.orders|
    ensures LifeOf(CancelAll(c, slug, now, lag), i) == AskCancelAll(LifeOf(c, i), slug, now + lag(i))
  {
    var byRest := CancelResting(c.resting, c.orders, slug, now, lag);
    var byPlace := CancelPlaces(c.places, c.orders, slug, now, lag);
    CancelRestingOf(c.resting, c.orders, slug, now, lag, i);
    CancelPlacesOf(c.places, c.orders, slug, now, lag, i);
    OfConcat(c.cancels + byRest, byPlace, i);
    OfConcat(c.cancels, byRest, i);
  }

  /** cancel_all_for_session, seen from each order. */
  lemma CancelAllProjects(c: Core, slug: string, now: int, lag: nat -> nat)
    requires Orderly(c) && !c.fault
    ensures var r := CancelAll(c, slug, now, lag);
            && !r.fault && Orderly(r)
            && forall i :: 0 <= i < |c.orders| ==> LifeOf(r, i) == AskCancelAll(LifeOf(c, i), slug, now + lag(i))
  {
    CancelAllOrderly(c, slug, now, lag);
    forall i | 0 <= i < |c.orders| {
      CancelAllLife(c, slug, now, lag, i);
    }
  }

  function NewLife(id: nat, o: Order): Life {
    Life(id, o, [], [], None, false, [], false)
  }

  lemma {:induction false} UnknownOf(ps: seq<Pending>, id: nat)
    requires KnownIds(ps, id)
    ensures Of(ps, id) == []
  {
    if ps != [] {
      assert ps[0] in ps && forall p <- ps[1..] :: p in ps;
      UnknownOf(ps[1..], id);
    }
  }

  lemma {:induction false} UnknownFills(journal: seq<Posting>, id: nat)
    requires forall p <- journal :: p.id < id
    ensures FillsOf(journal, id) == []
  {
    if journal != [] {
      var last := journal[|journal| - 1];
      assert last in journal && forall p <- journal[..|journal| - 1] :: p in journal;
      UnknownFills(journal[..|journal| - 1], id);
    }
  }

  /** A drafted order is new to the exchange; drafting it touches no other order. */
  lemma DraftedProjects(c: Core, o: Order)
    requires Orderly(c) && !c.fault && o.seen == {}
    ensures var r := Drafted(c, o);
            && !r.fault && Orderly(r)
            && LifeOf(r, |c.orders|) == NewLife(|c.orders|, o)
            && forall i :: 0 <= i < |c.orders| ==> LifeOf(r, i) == LifeOf(c, i)
  {
    var n := |c.orders|;
    UnknownOf(c.places, n);
    UnknownOf(c.cancels, n);
    FindRestId(c.resting, n);
    UnknownFills(c.journal, n);
  }
}
