/** What holds of a single order at any sizes and through any exception: no fill beyond its limit, and never more
    filled than its size. Only prices need be on their grid. */
module OrderBounds {
  import opened Grid
  import opened Orders
  import opened Books
  import opened Matching
  import opened Exchange
  import opened OneOrder
  import opened Projection

  /** An order with a limit on the tick grid and a size that is not negative. */
  ghost predicate Priced(o: Order) {
    OnTick(o.price) && o.price >= 0.0 && o.size >= 0.0
  }

  /** Not yet at the exchange, or on its way there: nothing filled, nothing resting. */
  predicate Untouched(l: Life) {
    l.fills == [] && l.rest.None?
  }

  /** Fills respect the limit, and with what still rests they stay within the size. */
  ghost predicate Within(l: Life) {
    && Priced(l.order)
    && (forall e <- l.fills :: ExecOk(l.order, e))
    && FilledBy(l.fills) + Resting(l) <= l.order.size
    && |l.places| <= 1
    && (l.places != [] ==> Untouched(l))
    && (l.order.state == Draft ==> l.places == [] && Untouched(l))
  }

  /** What may still be filled from the book's side of a resting order. */
  function Resting(l: Life): real {
    if l.rest.Some? then Max(l.rest.value.remaining, 0.0) else 0.0
  }

  /** The order's own count is that of the fills accounting heard of. */
  predicate Exact(l: Life) {
    l.order.filled == FilledBy(l.fills)
  }

  /** Accounting lost the last sliver of an order that was already FILLED to within the size tolerance. */
  predicate LostSliver(l: Life) {
    l.order.state == Filled && l.order.size - SIZE_TOL <= FilledBy(l.fills) < l.order.filled
  }

  /** The order's state, its own count, what accounting heard of and what still rests are in tune. */
  ghost predicate Tallied(l: Life) {
    && l.order.state in {Draft, Acked, Partial, Filled, Canceled, Expired}
    && (l.order.state == Draft <==> !l.acked)
    && (l.places != [] ==> l.order.state == Acked)
    && (l.rest.Some? ==>
          Live(l) && l.places == [] && Exact(l) && l.rest.value.remaining == l.order.size - l.order.filled)
    && l.order.filled <= l.order.size
    && (Exact(l) || LostSliver(l))
    && (l.order.state == Filled ==> FilledBy(l.fills) >= l.order.size - SIZE_TOL)
  }

  /** Accounting falls behind an order only where a fill raises. */
  predicate Counted(l: Life, r: Life) {
    Exact(l) && !r.raised ==> Exact(r)
  }

  predicate FeeFair(fee: Option<real>) {
    fee.Some? ==> 0.0 <= fee.value <= 1.0
  }

  /** r comes of l: within bounds and under the same contract. */
  ghost predicate Advances(l: Life, r: Life) {
    && Within(r)
    && SameTerms(l.order, r.order)
    && (r.order.state == Draft ==> l.order.state == Draft)
  }

  lemma AppendFill(fills: seq<Exec>, e: Exec)
    ensures FilledBy(fills + [e]) == FilledBy(fills) + e.size
  {
    assert (fills + [e])[..|fills|] == fills;
  }

  lemma FairFee(o: Order, id: nat, rate: real, price: real, size: real, taker: bool)
    requires 0.0 <= rate <= 1.0 && Priced(o) && size > 0.0
    requires price >= 0.0 && OnTick(price) && InLimit(o.side, o.price, price)
    ensures ExecOk(o, ExecOf(MakeFill(o, id, rate, price, size, taker, 0)))
  {
    FeeBounds(rate, price);
    ProductMonotone(FeePerShare(rate, price), 1.0, size);
    ProductMonotone(FeePerShare(rate, price), price, size);
    ProductMonotone(0.0, FeePerShare(rate, price), size);
    if o.side == Buy { TickGap(price, o.price); } else { TickGap(o.price, price); }
  }

  function ExecFor(l: Life, rate: real, price: real, size: real, taker: bool): Exec {
    ExecOf(MakeFill(l.order, l.id, rate, price, size, taker, 0))
  }

  /** An emission books its fill, or raises without booking it, or finds no fee or no order to fill. */
  lemma EmitCases(l: Life, fee: Option<real>, price: real, size: real, taker: bool)
    requires l.order.seen == {}
    ensures var r := Emit(l, fee, price, size, taker);
            && SameTracking(l, r) && r.order.seen == {}
            && (r.order.state == Draft ==> l.order.state == Draft)
            && (r.fills == l.fills
                || (fee.Some? && l.acked && r.fills == l.fills + [ExecFor(l, fee.value, price, size, taker)]))
  {
    EmitKeepsTerms(l, fee, price, size, taker);
  }

  /** A fill for which there is room. */
  lemma EmitWithin(l: Life, fee: Option<real>, price: real, size: real, taker: bool)
    requires Within(l) && l.order.state != Draft && l.places == [] && l.order.seen == {} && FeeFair(fee)
    requires size > 0.0 && FilledBy(l.fills) + Resting(l) + size <= l.order.size
    requires price >= 0.0 && OnTick(price) && InLimit(l.order.side, l.order.price, price)
    ensures var r := Emit(l, fee, price, size, taker);
            && Advances(l, r) && SameTracking(l, r) && r.order.seen == {}
            && FilledBy(r.fills) <= FilledBy(l.fills) + size
  {
    var r := Emit(l, fee, price, size, taker);
    EmitCases(l, fee, price, size, taker);
    if r.fills != l.fills {
      FairFee(l.order, l.id, fee.value, price, size, taker);
      BookedWithin(l, r, ExecFor(l, fee.value, price, size, taker));
    }
  }

  lemma BookedWithin(l: Life, r: Life, e: Exec)
    requires Within(l) && ExecOk(l.order, e) && FilledBy(l.fills) + Resting(l) + e.size <= l.order.size
    requires SameTracking(l, r) && r.fills == l.fills + [e] && l.places == [] && r.order.state != Draft
    ensures Advances(l, r) && FilledBy(r.fills) == FilledBy(l.fills) + e.size
  {
    AppendFill(l.fills, e);
  }

  ghost predicate QuotesWithin(side: Side, limit: real, qs: seq<Quote>) {
    forall q <- qs :: q.size > 0.0 && q.price >= 0.0 && OnTick(q.price) && InLimit(side, limit, q.price)
  }

  lemma {:induction false} WalkWithin(side: Side, limit: real, levels: Levels, size: real)
    requires LevelsOnTicks(levels) && size >= 0.0
    ensures var w := Walk(side, limit, levels, size); QuotesWithin(side, limit, w.quotes) && TotalSize(w.quotes) <= size
  {
    if levels != [] && InLimit(side, limit, levels[0].price) && size > 0.0 {
      var take := Min(levels[0].size, size);
      assert levels[0] in levels && forall lv <- levels[1..] :: lv in levels;
      WalkWithin(side, limit, levels[1..], if take > 0.0 then size - take else size);
    }
  }

  lemma {:induction false} QuotesTotal(side: Side, limit: real, qs: seq<Quote>)
    requires QuotesWithin(side, limit, qs)
    ensures TotalSize(qs) >= 0.0
  {
    if qs != [] {
      assert qs[0] in qs && forall q <- qs[1..] :: q in qs;
      QuotesTotal(side, limit, qs[1..]);
    }
  }

  lemma {:induction false} EmitQuotesWithin(l: Life, fee: Option<real>, quotes: seq<Quote>)
    requires Within(l) && l.order.state != Draft && l.places == [] && l.order.seen == {} && FeeFair(fee)
    requires QuotesWithin(l.order.side, l.order.price, quotes) && FilledBy(l.fills) + Resting(l) + TotalSize(quotes) <= l.order.size
    ensures Advances(l, EmitQuotes(l, fee, quotes)) && SameTracking(l, EmitQuotes(l, fee, quotes))
    decreases quotes
  {
    if quotes != [] && !l.raised {
      var q, rest := quotes[0], quotes[1..];
      assert q in quotes && forall x <- rest :: x in quotes;
      QuotesTotal(l.order.side, l.order.price, rest);
      EmitWithin(l, fee, q.price, q.size, true);
      EmitQuotesWithin(Emit(l, fee, q.price, q.size, true), fee, rest);
    }
  }

  lemma TakerQuotesWithin(o: Order, b: Book)
    requires Priced(o) && BookOnTicks(b)
    ensures QuotesWithin(o.side, o.price, TakerQuotes(o, b).quotes) && TotalSize(TakerQuotes(o, b).quotes) <= o.size
  {
    TopLevelsRank(Opposite(o.side), b.Of(Opposite(o.side)), 64);
    WalkWithin(o.side, o.price, TopLevels(Opposite(o.side), b.Of(Opposite(o.side)), 64), o.size);
  }

  lemma TakeWithin(l: Life, fee: Option<real>, b: Book)
    requires Within(l) && l.order.state != Draft && l.places == [] && Untouched(l) && l.order.seen == {} && FeeFair(fee)
    requires BookOnTicks(b)
    ensures Advances(l, Take(l, fee, b))
  {
    var quotes := TakerQuotes(l.order, b).quotes;
    TakerQuotesWithin(l.order, b);
    EmitQuotesWithin(l, fee, quotes);
    LapseWithin(l, l);
    LapseWithin(l, EmitQuotes(l, fee, quotes));
  }

  lemma LapseWithin(l: Life, r: Life)
    requires Within(l) && Advances(l, r) && l.order.state != Draft
    ensures Advances(l, Lapse(r))
  {
  }

  lemma LandWithin(l: Life, book: Option<Book>, fee: Option<real>, due: int)
    requires Within(l) && l.order.state != Draft && l.places == [] && Untouched(l) && l.order.seen == {} && FeeFair(fee)
    requires book.Some? ==> BookOnTicks(book.value)
    ensures Advances(l, Land(l, book, fee, due))
    ensures book.None? ==> Land(l, book, fee, due).fills == l.fills
  {
    if book.Some? { TakeWithin(l, fee, book.value); }
  }

  lemma DropWithin(l: Life)
    requires Within(l)
    ensures Advances(l, Drop(l)) && Drop(l).fills == l.fills
  {
  }

  lemma TapeWithin(l: Life, fee: Option<real>, tp: Print)
    requires Within(l) && !l.raised && l.order.seen == {} && FeeFair(fee)
    ensures Advances(l, Tape(l, fee, tp))
    ensures tp.token != l.order.token ==> Tape(l, fee, tp) == l
  {
    if l.rest.Some? && Through(l.order, l.rest.value, tp) {
      var fill := TapeFill(l.rest.value, tp.size);
      if fill > 0.0 { EmitWithin(l.(rest := Some(AfterTape(l.rest.value, tp.size))), fee, l.order.price, fill, false); }
    }
  }

  lemma SendWithin(l: Life, due: int)
    requires Within(l) && !l.raised
    ensures Within(Send(l, due)) && SameTerms(l.order, Send(l, due).order) && Send(l, due).fills == l.fills
  {
  }

  lemma SendTallied(l: Life, due: int)
    requires Within(l) && Tallied(l) && !l.raised
    ensures Tallied(Send(l, due)) && Counted(l, Send(l, due))
  {
  }

  lemma AskCancelAllWithin(l: Life, slug: string, due: int)
    requires Within(l)
    ensures Within(AskCancelAll(l, slug, due)) && AskCancelAll(l, slug, due).fills == l.fills
    ensures Tallied(l) ==> Tallied(AskCancelAll(l, slug, due))
  {
  }

  // ---- counts

  /** A fill raises only on an order that is already complete, and is then all that accounting misses. */
  lemma EmitTallied(l: Life, fee: Option<real>, price: real, size: real, taker: bool)
    requires Tallied(l) && !l.raised && l.rest.None? && l.places == [] && l.order.state != Draft && l.order.seen == {}
    requires l.order.state == Expired ==> fee.None?
    requires size > 0.0 && FilledBy(l.fills) + size <= l.order.size
    ensures var r := Emit(l, fee, price, size, taker);
            Tallied(r) && (r.order.state == Expired ==> fee.None?)
  {
    if fee.None? { LapseTallied(l); } else { EmitSomeTallied(l, fee.value, price, size, taker); }
  }

  lemma EmitSomeTallied(l: Life, rate: real, price: real, size: real, taker: bool)
    requires Tallied(l) && !l.raised && l.rest.None? && l.places == [] && l.order.state !in {Draft, Expired} && l.order.seen == {}
    requires size > 0.0 && FilledBy(l.fills) + size <= l.order.size
    ensures var r := Emit(l, Some(rate), price, size, taker); Tallied(r) && r.order.state != Expired
  {
    if Live(l) {
      EmitLiveTallied(l, rate, price, size, taker);
    } else if l.order.state == Filled {
      EmitFilledTallied(l, rate, price, size, taker);
    } else {
      EmitCanceledTallied(l, rate, price, size, taker);
    }
  }

  lemma EmitLiveTallied(l: Life, rate: real, price: real, size: real, taker: bool)
    requires Tallied(l) && !l.raised && l.rest.None? && l.places == [] && Live(l) && l.order.seen == {}
    requires size > 0.0 && FilledBy(l.fills) + size <= l.order.size
    ensures var r := Emit(l, Some(rate), price, size, taker); Tallied(r) && r.order.state != Expired
  {
    EmitRoom(l, rate, price, size, taker);
    AppendFill(l.fills, ExecFor(l, rate, price, size, taker));
  }

  /** A fill of a FILLED order raises. */
  lemma EmitFilledTallied(l: Life, rate: real, price: real, size: real, taker: bool)
    requires Tallied(l) && l.rest.None? && l.places == [] && l.order.state == Filled && l.order.seen == {} && size > 0.0
    ensures var r := Emit(l, Some(rate), price, size, taker); Tallied(r) && r.order.state != Expired
  {
  }

  /** A late fill of a CANCELED order is told, and its state stays. */
  lemma EmitCanceledTallied(l: Life, rate: real, price: real, size: real, taker: bool)
    requires Tallied(l) && l.rest.None? && l.places == [] && l.order.state == Canceled && l.order.seen == {}
    requires size > 0.0 && FilledBy(l.fills) + size <= l.order.size
    ensures var r := Emit(l, Some(rate), price, size, taker); Tallied(r) && r.order.state != Expired
  {
    AppendFill(l.fills, ExecFor(l, rate, price, size, taker));
  }

  lemma EmitCounted(l: Life, fee: Option<real>, price: real, size: real, taker: bool)
    requires Tallied(l) && l.order.seen == {} && size > 0.0 && FilledBy(l.fills) + size <= l.order.size
    ensures Counted(l, Emit(l, fee, price, size, taker))
  {
    if fee.Some? { AppendFill(l.fills, ExecFor(l, fee.value, price, size, taker)); }
  }

  lemma {:induction false} EmitQuotesTallied(l: Life, fee: Option<real>, quotes: seq<Quote>)
    requires Within(l) && Tallied(l) && l.rest.None? && l.places == [] && l.order.state != Draft && l.order.seen == {}
    requires FeeFair(fee) && (l.order.state == Expired ==> fee.None?)
    requires QuotesWithin(l.order.side, l.order.price, quotes) && FilledBy(l.fills) + TotalSize(quotes) <= l.order.size
    ensures Tallied(EmitQuotes(l, fee, quotes)) && Counted(l, EmitQuotes(l, fee, quotes))
    decreases quotes
  {
    if quotes != [] && !l.raised {
      var q, rest := quotes[0], quotes[1..];
      assert q in quotes && forall x <- rest :: x in quotes;
      QuotesTotal(l.order.side, l.order.price, rest);
      EmitWithin(l, fee, q.price, q.size, true);
      EmitTallied(l, fee, q.price, q.size, true);
      EmitCounted(l, fee, q.price, q.size, true);
      EmitQuotesTallied(Emit(l, fee, q.price, q.size, true), fee, rest);
    }
  }

  lemma LapseTallied(l: Life)
    requires Tallied(l) && l.rest.None? && l.places == [] && l.order.state != Draft
    ensures Tallied(Lapse(l)) && Counted(l, Lapse(l))
  {
  }

  lemma TakeTallied(l: Life, fee: Option<real>, b: Book)
    requires Within(l) && Tallied(l) && l.places == [] && Untouched(l) && l.order.state == Acked && l.order.seen == {}
    requires FeeFair(fee) && BookOnTicks(b)
    ensures Tallied(Take(l, fee, b)) && Counted(l, Take(l, fee, b))
  {
    var w := TakerQuotes(l.order, b);
    TakerQuotesWithin(l.order, b);
    EmitQuotesWithin(l, fee, w.quotes);
    EmitQuotesTallied(l, fee, w.quotes);
    LapseTallied(l);
    if EmitQuotes(l, fee, w.quotes).order.state != Draft { LapseTallied(EmitQuotes(l, fee, w.quotes)); }
  }

  lemma LandTallied(l: Life, book: Option<Book>, fee: Option<real>, due: int)
    requires Within(l) && Tallied(l) && l.places == [] && Untouched(l) && l.order.state == Acked && l.order.seen == {}
    requires FeeFair(fee) && (book.Some? ==> BookOnTicks(book.value))
    ensures Tallied(Land(l, book, fee, due)) && Counted(l, Land(l, book, fee, due))
  {
    LapseTallied(l);
    if book.Some? {
      TakeTallied(l, fee, book.value);
      JoinTallied(l, fee, book.value, due);
    }
  }

  lemma JoinTallied(l: Life, fee: Option<real>, b: Book, due: int)
    requires Within(l) && Tallied(l) && l.places == [] && Untouched(l) && l.order.state == Acked && l.order.seen == {}
    requires FeeFair(fee) && BookOnTicks(b)
    ensures Tallied(Join(l, fee, b, due)) && Counted(l, Join(l, fee, b, due))
  {
    TakeTallied(l, fee, b);
  }

  lemma DropTallied(l: Life)
    requires Tallied(l)
    ensures Tallied(Drop(l)) && Counted(l, Drop(l))
  {
  }

  /** A fill a live order has room for, at any size. */
  lemma EmitRoom(l: Life, rate: real, price: real, size: real, taker: bool)
    requires l.acked && Live(l) && !l.raised && l.order.seen == {} && l.order.filled + size <= l.order.size
    ensures var r, e, filled := Emit(l, Some(rate), price, size, taker), ExecFor(l, rate, price, size, taker), l.order.filled + size;
            r == l.(order := l.order.(filled := filled, feeShares := r.order.feeShares, feeUsdc := r.order.feeUsdc,
                                      state := if filled >= l.order.size - SIZE_TOL then Filled else Partial),
                    fills := l.fills + [e])
  {
  }

  /** A fill from the queue, up to what rests: the order goes on, or is FILLED and leaves. */
  lemma RestFilled(l: Life, rate: real, fill: real)
    requires Tallied(l) && !l.raised && l.order.seen == {} && l.rest.Some? && 0.0 < fill <= l.rest.value.remaining
    ensures var r := Emit(l, Some(rate), l.order.price, fill, false);
            && !r.raised && r.order.filled == l.order.filled + fill && Exact(r) && SameTracking(l, r)
            && r.order.state == if l.rest.value.remaining - fill <= SIZE_TOL then Filled else Partial
  {
    EmitRoom(l, rate, l.order.price, fill, false);
    AppendFill(l.fills, ExecFor(l, rate, l.order.price, fill, false));
  }

  lemma RestMoved(l: Life, fee: Option<real>, price: real, size: real, taker: bool, rest: Option<Rest>)
    ensures Emit(l.(rest := rest), fee, price, size, taker) == Emit(l, fee, price, size, taker).(rest := rest)
  {
  }

  /** What a print leaves of an order that it fills. */
  lemma TapeFills(l: Life, fee: Option<real>, tp: Print)
    requires Tallied(l) && !l.raised && l.order.seen == {} && fee.Some? && l.rest.Some?
    requires Through(l.order, l.rest.value, tp) && TapeFill(l.rest.value, tp.size) > 0.0
    ensures var x, fill := l.rest.value, TapeFill(l.rest.value, tp.size);
            Tape(l, fee, tp) == Emit(l, fee, l.order.price, fill, false)
                                .(rest := if x.remaining - fill <= SIZE_TOL then None else Some(AfterTape(x, tp.size)))
  {
    var x, fill := l.rest.value, TapeFill(l.rest.value, tp.size);
    RestFilled(l, fee.value, fill);
    RestMoved(l, fee, l.order.price, fill, false, Some(AfterTape(x, tp.size)));
  }

  /** A print never raises: what rests is always an order that can still be filled. */
  lemma TapeTallied(l: Life, fee: Option<real>, tp: Print)
    requires Tallied(l) && !l.raised && l.order.seen == {} && (l.order.token == tp.token ==> fee.Some?)
    ensures Tallied(Tape(l, fee, tp)) && Counted(l, Tape(l, fee, tp)) && !Tape(l, fee, tp).raised
  {
    if l.rest.Some? && Through(l.order, l.rest.value, tp) && TapeFill(l.rest.value, tp.size) > 0.0 {
      var x, fill := l.rest.value, TapeFill(l.rest.value, tp.size);
      TapeFills(l, fee, tp);
      RestFilled(l, fee.value, fill);
      FilledTallied(l, Emit(l, fee, l.order.price, fill, false), fill, AfterTape(x, tp.size));
    }
  }

  lemma FilledTallied(l: Life, r: Life, fill: real, after: Rest)
    requires Tallied(l) && l.rest.Some? && 0.0 < fill <= l.rest.value.remaining
    requires r.order.filled == l.order.filled + fill && Exact(r) && SameTracking(l, r)
    requires r.order.state == if l.rest.value.remaining - fill <= SIZE_TOL then Filled else Partial
    requires after.remaining == l.rest.value.remaining - fill
    ensures Tallied(r.(rest := if l.rest.value.remaining - fill <= SIZE_TOL then None else Some(after)))
  {
  }

  lemma {:induction false} NothingFilled(o: Order, fills: seq<Exec>)
    requires forall e <- fills :: ExecOk(o, e)
    ensures FilledBy(fills) >= 0.0 && (FilledBy(fills) == 0.0 ==> fills == [])
  {
    if fills != [] {
      var init, last := fills[..|fills| - 1], fills[|fills| - 1];
      assert last in fills && forall e <- init :: e in fills;
      NothingFilled(o, init);
    }
  }

  /** On the lot grid the coupling of an order's views implies its bounds. */
  lemma CoupledWithin(l: Life)
    requires Coupled(l)
    ensures Within(l) && Tallied(l) && Exact(l)
  {
    NothingFilled(l.order, l.fills);
  }
}
