/** One order's life in the exchange: everything the exchange and the order manager hold about it, and the
    invariant that couples those views. */
module OneOrder {
  import opened Grid
  import opened Orders
  import opened Books
  import opened Matching
  import opened Exchange

  /** A fill as its order sees it, without the trade number. */
  datatype Exec = Exec(price: real, size: real, feeShares: real, feeUsdc: real)

  datatype Life = Life(id: nat, order: Order, places: seq<int>, cancels: seq<int>, rest: Option<Rest>,
                       acked: bool, fills: seq<Exec>, raised: bool)

  function ExecOf(f: Fill): Exec {
    Exec(f.price, f.size, f.feeShares, f.feeUsdc)
  }

  function Shift(l: Life, next: OrderState): Life {
    if l.order.CanBecome(next) then l.(order := l.order.(state := next)) else l.(raised := true)
  }

  function Lapse(l: Life): Life {
    if l.order.Terminal() then l else Shift(l, Expired)
  }

  function Confirm(l: Life): Life {
    if l.order.Terminal() then l else Shift(l, Canceled)
  }

  function Emit(l: Life, fee: Option<real>, price: real, size: real, taker: bool): Life {
    if fee.None? then Lapse(l)
    else if !l.acked then l
    else
      var f := MakeFill(l.order, l.id, fee.value, price, size, taker, 0).(tradeId := Unidentified);
      var d := Deliver(l.order, f);
      l.(order := d.order, fills := if d.applied then l.fills + [ExecOf(f)] else l.fills, raised := d.raised)
  }

  function EmitQuotes(l: Life, fee: Option<real>, quotes: seq<Quote>): Life
    decreases quotes
  {
    if quotes == [] || l.raised then l
    else EmitQuotes(Emit(l, fee, quotes[0].price, quotes[0].size, true), fee, quotes[1..])
  }

  function Take(l: Life, fee: Option<real>, b: Book): Life {
    var w := TakerQuotes(l.order, b);
    if w.quotes == [] then Lapse(l)
    else
      var l1 := EmitQuotes(l, fee, w.quotes);
      if !l1.raised && w.remaining > SIZE_TOL then Lapse(l1) else l1
  }

  function Join(l: Life, fee: Option<real>, b: Book, arrival: int): Life {
    if Crosses(l.order, b) then Take(l, fee, b)
    else l.(rest := Some(Rest(l.id, SizeAt(b.Of(l.order.side), l.order.price), arrival, l.order.size)))
  }

  function Land(l: Life, book: Option<Book>, fee: Option<real>, due: int): Life {
    if book.None? || book.value.dirty then Lapse(l)
    else if l.order.tif in {FAK, FOK} then Take(l, fee, book.value)
    else Join(l, fee, book.value, due)
  }

  function LandAll(l: Life, book: Option<Book>, fee: Option<real>, dues: seq<int>): Life
    decreases dues
  {
    if dues == [] || l.raised then l else LandAll(Land(l, book, fee, dues[0]), book, fee, dues[1..])
  }

  function Drop(l: Life): Life {
    var tracked := l.rest.Some? || l.places != [];
    var l1 := l.(rest := None, places := []);
    if tracked || !l.order.Terminal() then Confirm(l1) else l1
  }

  function DropAll(l: Life, dues: seq<int>): Life
    decreases dues
  {
    if dues == [] || l.raised then l else DropAll(Drop(l), dues[1..])
  }

  function TimesBy(ts: seq<int>, now: int): seq<int> {
    if ts == [] then []
    else if ts[0] <= now then [ts[0]] + TimesBy(ts[1..], now)
    else TimesBy(ts[1..], now)
  }

  function TimesAfter(ts: seq<int>, now: int): seq<int> {
    if ts == [] then []
    else if ts[0] > now then [ts[0]] + TimesAfter(ts[1..], now)
    else TimesAfter(ts[1..], now)
  }

  function InsertTime(t: int, ts: seq<int>): seq<int> {
    if ts == [] || t <= ts[0] then [t] + ts else [ts[0]] + InsertTime(t, ts[1..])
  }

  function SortTimes(ts: seq<int>): seq<int> {
    if ts == [] then [] else InsertTime(ts[0], SortTimes(ts[1..]))
  }

  function PlacesDue(l: Life, book: Option<Book>, fee: Option<real>, now: int): Life {
    LandAll(l.(places := TimesAfter(l.places, now)), book, fee, SortTimes(TimesBy(l.places, now)))
  }

  function CancelsDue(l: Life, now: int): Life {
    DropAll(l.(cancels := TimesAfter(l.cancels, now)), SortTimes(TimesBy(l.cancels, now)))
  }

  function Elapse(l: Life, book: Option<Book>, fee: Option<real>, now: int): Life {
    var l1 := PlacesDue(l, book, fee, now);
    if l1.raised then l1 else CancelsDue(l1, now)
  }

  function Tape(l: Life, fee: Option<real>, tp: Print): Life {
    if l.rest.None? || !Through(l.order, l.rest.value, tp) then l
    else
      var r := l.rest.value;
      var l1 := l.(rest := Some(AfterTape(r, tp.size)));
      var fill := TapeFill(r, tp.size);
      if fill <= 0.0 then l1
      else
        var l2 := Emit(l1, fee, l.order.price, fill, false);
        if !l2.raised && r.remaining - fill <= SIZE_TOL then l2.(rest := None) else l2
  }

  function Send(l: Life, due: int): Life {
    var l1 := Shift(l, Signed);
    if l1.raised then l1
    else
      var l2 := Shift(l1, Sent);
      if l2.raised then l2 else Shift(l2.(places := l2.places + [due], acked := true), Acked)
  }

  function AskCancel(l: Life, due: int): Life {
    if l.order.Terminal() then l
    else l.(order := l.order.(cancelRequested := true), cancels := l.cancels + [due])
  }

  function CopyTimes(ts: seq<int>, due: int): seq<int> {
    if ts == [] then [] else [due] + CopyTimes(ts[1..], due)
  }

  function AskCancelAll(l: Life, slug: string, due: int): Life {
    if l.order.slug != slug then l
    else l.(order := FlagOpen(l.order, slug),
            cancels := l.cancels + (if l.rest.Some? then [due] else []) + CopyTimes(l.places, due))
  }

  // ---- the coupling invariant

  function FilledBy(fills: seq<Exec>): real {
    if fills == [] then 0.0 else FilledBy(fills[..|fills| - 1]) + fills[|fills| - 1].size
  }

  /** A fill within its order's limit, its fee charged in shares when buying and in collateral when selling. */
  ghost predicate ExecOk(o: Order, e: Exec) {
    && e.size > 0.0 && e.price >= 0.0
    && (if o.side == Buy then
          e.price <= o.price && e.feeUsdc == 0.0 && 0.0 <= e.feeShares <= e.size
        else
          e.price >= o.price && e.feeShares == 0.0 && 0.0 <= e.feeUsdc <= Product(e.price, e.size))
  }

  ghost predicate OrderOnGrid(o: Order) {
    OnLot(o.size) && o.size > 0.0 && OnTick(o.price) && o.price >= 0.0
  }

  predicate Live(l: Life) {
    l.order.state in {Acked, Partial}
  }

  /** The order's state, its filled size and the fills delivered agree. */
  ghost predicate Sound(l: Life) {
    var o := l.order;
    && !l.raised && OrderOnGrid(o) && o.seen == {}
    && OnLot(o.filled) && 0.0 <= o.filled <= o.size
    && o.filled == FilledBy(l.fills)
    && (forall e <- l.fills :: ExecOk(o, e))
    && o.state in {Draft, Acked, Partial, Filled, Canceled, Expired}
    && (o.state == Draft <==> !l.acked)
    && (o.state in {Draft, Acked} ==> o.filled == 0.0)
    && (o.state == Partial ==> o.filled > 0.0)
    && (o.state == Filled <==> o.filled == o.size)
  }

  /** A live order is in exactly one of the pending places and the resting makers, any other order in
      neither, and the resting entry knows exactly what is left of the order. */
  ghost predicate Coupled(l: Life) {
    && Sound(l)
    && |l.places| <= 1
    && (l.places != [] ==> l.order.state == Acked && l.rest.None?)
    && (l.rest.Some? ==> Live(l) && l.rest.value.remaining == l.order.size - l.order.filled && OnLot(l.rest.value.queueAhead))
    && (Live(l) ==> l.places != [] || l.rest.Some?)
  }

  /** What the matching may rely on: a usable book is on the grids and comes with a fee rate in [0, 1]. */
  ghost predicate Usable(book: Option<Book>, fee: Option<real>) {
    book.Some? && !book.value.dirty ==> BookOnGrid(book.value) && FeeKnown(fee)
  }

  predicate FeeKnown(fee: Option<real>) {
    fee.Some? && 0.0 <= fee.value <= 1.0
  }

  lemma FeeBounds(rate: real, price: real)
    requires 0.0 <= rate <= 1.0 && price >= 0.0
    ensures 0.0 <= FeePerShare(rate, price) <= 1.0
    ensures FeePerShare(rate, price) <= price
  {
    if price < 1.0 {
      var q := price * (1.0 - price);
      assert 0.0 <= q <= price;
      assert 0.0 <= rate * q <= q;
      assert rate * price * (1.0 - price) == rate * q;
    }
  }

  // ---- fills, written out

  /** The taker fee of a trade in dollars: rate x p x (1 - p) a share, and nothing at prices outside (0, 1). */
  function TakerFee(rate: real, q: Quote): real {
    if 0.0 < q.price < 1.0 then rate * q.price * (1.0 - q.price) * q.size else 0.0
  }

  /** A taker's trade, seen from its order: a buyer's fee is withheld in shares, a seller's in dollars. */
  function TakerExec(side: Side, rate: real, q: Quote): Exec {
    Exec(q.price, q.size, if side == Buy then TakerFee(rate, q) else 0.0, if side == Buy then 0.0 else TakerFee(rate, q))
  }

  /** A maker pays no fee. */
  function MakerExec(price: real, size: real): Exec {
    Exec(price, size, 0.0, 0.0)
  }

  function Executed(side: Side, rate: real, price: real, size: real, taker: bool): Exec {
    if taker then TakerExec(side, rate, Quote(price, size)) else MakerExec(price, size)
  }

  lemma MadeAs(o: Order, id: nat, rate: real, price: real, size: real, taker: bool, number: nat)
    ensures ExecOf(MakeFill(o, id, rate, price, size, taker, number)) == Executed(o.side, rate, price, size, taker)
  {
  }

  /** A fill that does not raise is told as emitted. */
  lemma EmitTells(l: Life, rate: real, price: real, size: real, taker: bool)
    requires l.acked && !Emit(l, Some(rate), price, size, taker).raised
    ensures Emit(l, Some(rate), price, size, taker).fills
            == l.fills + [Executed(l.order.side, rate, price, size, taker)]
  {
    MadeAs(l.order, l.id, rate, price, size, taker, 0);
  }

  lemma EmitKeepsSide(l: Life, fee: Option<real>, price: real, size: real, taker: bool)
    ensures Emit(l, fee, price, size, taker).order.side == l.order.side && Emit(l, fee, price, size, taker).acked == l.acked
  {
  }

  /** The trades of a run of quotes, one by one. */
  function TakerExecs(side: Side, rate: real, quotes: seq<Quote>): seq<Exec> {
    if quotes == [] then [] else [TakerExec(side, rate, quotes[0])] + TakerExecs(side, rate, quotes[1..])
  }

  lemma {:induction false} TakerExecsAt(side: Side, rate: real, quotes: seq<Quote>, k: nat)
    requires k < |quotes|
    ensures |TakerExecs(side, rate, quotes)| == |quotes|
    ensures TakerExecs(side, rate, quotes)[k] == TakerExec(side, rate, quotes[k])
  {
    if |quotes| > 1 { TakerExecsAt(side, rate, quotes[1..], if k > 0 then k - 1 else 0); }
  }

  lemma Regroup<T>(a: seq<T>, b: seq<T>, c: seq<T>)
    ensures a + b + c == a + (b + c) && a + [] == a
  {
  }

  lemma {:induction false} EmitQuotesTell(l: Life, rate: real, quotes: seq<Quote>)
    requires l.acked && !EmitQuotes(l, Some(rate), quotes).raised
    ensures EmitQuotes(l, Some(rate), quotes).fills == l.fills + TakerExecs(l.order.side, rate, quotes)
    decreases quotes
  {
    if quotes == [] || l.raised {
      Regroup(l.fills, [], []);
    } else {
      var l1 := EmitFirst(l, rate, quotes);
      EmitQuotesTell(l1, rate, quotes[1..]);
      Regroup(l.fills, [TakerExec(l.order.side, rate, quotes[0])], TakerExecs(l.order.side, rate, quotes[1..]));
    }
  }

  lemma EmitFirst(l: Life, rate: real, quotes: seq<Quote>) returns (l1: Life)
    requires l.acked && quotes != [] && !l.raised && !EmitQuotes(l, Some(rate), quotes).raised
    ensures EmitQuotes(l, Some(rate), quotes) == EmitQuotes(l1, Some(rate), quotes[1..])
    ensures l1.acked && l1.order.side == l.order.side && l1.fills == l.fills + [TakerExec(l.order.side, rate, quotes[0])]
  {
    l1 := Emit(l, Some(rate), quotes[0].price, quotes[0].size, true);
    EmitTells(l, rate, quotes[0].price, quotes[0].size, true);
    EmitKeepsSide(l, Some(rate), quotes[0].price, quotes[0].size, true);
  }

  lemma LapseTellsNothing(l: Life)
    ensures Lapse(l).fills == l.fills
  {
  }

  /** A taker order that does not raise is told exactly the quotes of its walk, one trade a quote, in order, at the price
      of the level, with the taker fee of that price. */
  lemma TakeTells(l: Life, rate: real, b: Book)
    requires l.acked && !Take(l, Some(rate), b).raised
    ensures Take(l, Some(rate), b).fills == l.fills + TakerExecs(l.order.side, rate, TakerQuotes(l.order, b).quotes)
  {
    Regroup(l.fills, [], []);
    var quotes := TakerQuotes(l.order, b).quotes;
    if quotes == [] {
      LapseTellsNothing(l);
    } else {
      EmitQuotesTell(l, rate, quotes);
      LapseTellsNothing(EmitQuotes(l, Some(rate), quotes));
    }
  }

  // ---- fills on the lot grid

  /** A quote that fits what is left of a live order. */
  ghost predicate Fits(l: Life, price: real, size: real) {
    && size > 0.0 && OnLot(size) && l.order.filled + size <= l.order.size
    && price >= 0.0 && OnTick(price) && InLimit(l.order.side, l.order.price, price)
  }

  function Advanced(l: Life, e: Exec): Life {
    var filled := l.order.filled + e.size;
    l.(order := l.order.(filled := filled, feeShares := l.order.feeShares + e.feeShares,
                         feeUsdc := l.order.feeUsdc + e.feeUsdc,
                         state := if filled == l.order.size then Filled else Partial),
       fills := l.fills + [e])
  }

  lemma EmittedFee(l: Life, rate: real, price: real, size: real, taker: bool)
    requires 0.0 <= rate <= 1.0 && Sound(l) && Fits(l, price, size)
    ensures ExecOk(l.order, Executed(l.order.side, rate, price, size, taker))
  {
    FeeBounds(rate, price);
    ProductMonotone(FeePerShare(rate, price), 1.0, size);
    ProductMonotone(FeePerShare(rate, price), price, size);
    ProductMonotone(0.0, FeePerShare(rate, price), size);
    if l.order.side == Buy { TickGap(price, l.order.price); } else { TickGap(l.order.price, price); }
  }

  /** On the lot grid a fill completes its order exactly when it reaches the order's size. */
  lemma FillCompletes(filled: real, size: real)
    requires OnLot(filled) && OnLot(size) && filled <= size
    ensures filled >= size - SIZE_TOL <==> filled == size
  {
    MultipleDifference(size, filled, LOT);
    if filled < size { LotGap(size - filled); }
  }

  lemma EmitIs(l: Life, fee: Option<real>, price: real, size: real, taker: bool)
    requires !l.raised && l.acked && Live(l) && l.order.seen == {} && fee.Some?
    requires OnLot(l.order.filled) && OnLot(l.order.size) && OnLot(size) && l.order.filled + size <= l.order.size
    ensures Emit(l, fee, price, size, taker)
            == Advanced(l, Executed(l.order.side, fee.value, price, size, taker))
  {
    MadeAs(l.order, l.id, fee.value, price, size, taker, 0);
    MultipleSum(l.order.filled, size, LOT);
    FillCompletes(l.order.filled + size, l.order.size);
  }

  lemma AdvancedSound(l: Life, e: Exec)
    requires Sound(l) && Live(l) && ExecOk(l.order, e)
    requires OnLot(e.size) && l.order.filled + e.size <= l.order.size
    ensures Sound(Advanced(l, e))
  {
    MultipleSum(l.order.filled, e.size, LOT);
    assert (l.fills + [e])[..|l.fills|] == l.fills;
  }

  /** Emitting a fill that fits never raises and books exactly that fill, at its price and with the fee of that price. */
  lemma EmitSound(l: Life, fee: Option<real>, price: real, size: real, taker: bool)
    requires Sound(l) && Live(l) && FeeKnown(fee) && Fits(l, price, size)
    ensures Emit(l, fee, price, size, taker) == Advanced(l, Executed(l.order.side, fee.value, price, size, taker))
    ensures Sound(Emit(l, fee, price, size, taker))
  {
    EmittedFee(l, fee.value, price, size, taker);
    EmitIs(l, fee, price, size, taker);
    AdvancedSound(l, Executed(l.order.side, fee.value, price, size, taker));
  }

  // ---- every operation keeps the coupling

  /** Only the progress of the order has changed. */
  predicate SameTerms(o: Order, p: Order) {
    p == o.(state := p.state, filled := p.filled, feeShares := p.feeShares, feeUsdc := p.feeUsdc)
  }

  predicate SameTracking(l: Life, r: Life) {
    SameTerms(l.order, r.order) && r == l.(order := r.order, fills := r.fills, raised := r.raised)
  }

  lemma {:induction false} EmitQuotesSound(l: Life, fee: Option<real>, quotes: seq<Quote>)
    requires Sound(l) && Live(l) && FeeKnown(fee) && quotes != []
    requires QuotesOk(l.order.side, l.order.price, quotes)
    requires TotalSize(quotes) <= l.order.size - l.order.filled
    ensures var r := EmitQuotes(l, fee, quotes);
            && Sound(r) && SameTracking(l, r)
            && r.order.filled == l.order.filled + TotalSize(quotes)
            && r.order.state == (if r.order.filled == r.order.size then Filled else Partial)
    decreases quotes
  {
    var q, rest := quotes[0], quotes[1..];
    assert q in quotes && forall x <- rest :: x in quotes;
    QuotesPositive(l.order.side, l.order.price, rest);
    EmitSound(l, fee, q.price, q.size, true);
    var l1 := Emit(l, fee, q.price, q.size, true);
    if rest != [] {
      EmitQuotesSound(l1, fee, rest);
    }
  }

  lemma {:induction false} QuotesPositive(side: Side, limit: real, quotes: seq<Quote>)
    requires QuotesOk(side, limit, quotes)
    ensures TotalSize(quotes) >= 0.0 && (quotes != [] ==> TotalSize(quotes) > 0.0)
  {
    if quotes != [] {
      assert quotes[0] in quotes && forall x <- quotes[1..] :: x in quotes;
      QuotesPositive(side, limit, quotes[1..]);
    }
  }

  lemma TakerQuotesSound(o: Order, b: Book)
    requires OrderOnGrid(o) && BookOnGrid(b)
    ensures var w := TakerQuotes(o, b);
            && QuotesOk(o.side, o.price, w.quotes) && OnLot(w.remaining)
            && 0.0 <= TotalSize(w.quotes) <= o.size
            && (w.quotes != [] ==> w.remaining == o.size - TotalSize(w.quotes))
  {
    var levels := TopLevels(Opposite(o.side), b.Of(Opposite(o.side)), 64);
    TopLevelsRank(Opposite(o.side), b.Of(Opposite(o.side)), 64);
    WalkOnGrid(o.side, o.price, levels, o.size);
    QuotesPositive(o.side, o.price, TakerQuotes(o, b).quotes);
  }

  /** What a taker order does not get expires with it. */
  lemma LeftoverExpires(l: Life, remaining: real)
    requires Sound(l) && l.order.state in {Partial, Filled}
    requires OnLot(remaining) && remaining == l.order.size - l.order.filled
    ensures var r := if remaining > SIZE_TOL then Lapse(l) else l;
            Sound(r) && SameTracking(l, r) && r.order.state in {Filled, Expired} && r.order.filled == l.order.filled
  {
    if remaining > 0.0 { LotGap(remaining); }
  }

  /** A taker order leaves the exchange at once: filled, or expired with what it got, one trade a quote of its walk. */
  lemma TakeSound(l: Life, fee: Option<real>, b: Book)
    requires Sound(l) && l.order.state == Acked && FeeKnown(fee) && BookOnGrid(b)
    ensures var r := Take(l, fee, b);
            && Sound(r) && SameTracking(l, r) && r.order.state in {Filled, Expired}
            && r.order.filled == TotalSize(TakerQuotes(l.order, b).quotes)
            && r.fills == l.fills + TakerExecs(l.order.side, fee.value, TakerQuotes(l.order, b).quotes)
  {
    TakeEnds(l, fee, b);
    TakeTells(l, fee.value, b);
  }

  lemma TakeEnds(l: Life, fee: Option<real>, b: Book)
    requires Sound(l) && l.order.state == Acked && FeeKnown(fee) && BookOnGrid(b)
    ensures var r := Take(l, fee, b);
            && Sound(r) && SameTracking(l, r) && r.order.state in {Filled, Expired}
            && r.order.filled == TotalSize(TakerQuotes(l.order, b).quotes)
  {
    var w := TakerQuotes(l.order, b);
    TakerQuotesSound(l.order, b);
    if w.quotes != [] {
      EmitQuotesSound(l, fee, w.quotes);
      LeftoverExpires(EmitQuotes(l, fee, w.quotes), w.remaining);
    }
  }

  /** What a taker order can see within its limit: the 64 best opposite levels. */
  function InReach(o: Order, b: Book): real {
    Visible(o.side, o.price, TopLevels(Opposite(o.side), b.Of(Opposite(o.side)), 64))
  }

  lemma WalkReach(o: Order, b: Book)
    requires OrderOnGrid(o) && BookOnGrid(b)
    ensures TotalSize(TakerQuotes(o, b).quotes)
            == if o.tif == FOK && InReach(o, b) < o.size then 0.0 else Min(o.size, InReach(o, b))
  {
    var levels := TopLevels(Opposite(o.side), b.Of(Opposite(o.side)), 64);
    TopLevelsRank(Opposite(o.side), b.Of(Opposite(o.side)), 64);
    WalkOnGrid(o.side, o.price, levels, o.size);
    WalkFillsVisible(o.side, o.price, levels, o.size);
    var w := Walk(o.side, o.price, levels, o.size);
    if w.remaining > 0.0 { LotGap(w.remaining); }
  }

  /** A taker order gets exactly what is in reach up to its size, a fill-or-kill order all or nothing; it ends
      FILLED exactly when that is its whole size, and EXPIRED otherwise. */
  lemma TakerGets(l: Life, fee: Option<real>, b: Book)
    requires Sound(l) && l.order.state == Acked && FeeKnown(fee) && BookOnGrid(b)
    ensures var o, r := l.order, Take(l, fee, b).order;
            && r.filled == (if o.tif == FOK && InReach(o, b) < o.size then 0.0 else Min(o.size, InReach(o, b)))
            && r.state == (if InReach(o, b) >= o.size then Filled else Expired)
  {
    TakeSound(l, fee, b);
    WalkReach(l.order, b);
    var levels := TopLevels(Opposite(l.order.side), b.Of(Opposite(l.order.side)), 64);
    VisibleNonNegative(l.order.side, l.order.price, levels);
  }

  lemma {:induction false} SizeAtOnGrid(ls: Levels, price: real)
    requires LevelsOnGrid(ls)
    ensures OnLot(SizeAt(ls, price))
  {
    ZeroIsMultiple(LOT);
    if ls != [] {
      assert ls[0] in ls && forall lv <- ls[1..] :: lv in ls;
      SizeAtOnGrid(ls[1..], price);
    }
  }

  lemma LandCoupled(l: Life, book: Option<Book>, fee: Option<real>, due: int)
    requires Sound(l) && l.order.state == Acked && l.places == [] && l.rest.None?
    requires Usable(book, fee)
    ensures Coupled(Land(l, book, fee, due))
  {
    if book.Some? && !book.value.dirty {
      TakeSound(l, fee, book.value);
      JoinCoupled(l, fee, book.value, due);
    }
  }

  lemma JoinCoupled(l: Life, fee: Option<real>, b: Book, arrival: int)
    requires Sound(l) && l.order.state == Acked && l.places == [] && l.rest.None?
    requires BookOnGrid(b) && FeeKnown(fee)
    ensures Coupled(Join(l, fee, b, arrival))
  {
    TakeSound(l, fee, b);
    SizeAtOnGrid(b.Of(l.order.side), l.order.price);
  }

  lemma SingleTime(ts: seq<int>, now: int)
    requires |ts| <= 1
    ensures SortTimes(TimesBy(ts, now)) == TimesBy(ts, now)
    ensures ts == [] ==> TimesBy(ts, now) == TimesAfter(ts, now) == []
    ensures ts != [] ==> TimesBy(ts, now) == (if ts[0] <= now then ts else []) && TimesAfter(ts, now) == (if ts[0] > now then ts else [])
  {
    if ts != [] { assert ts[1..] == []; assert ts == [ts[0]]; }
  }

  lemma PlacesDueCoupled(l: Life, book: Option<Book>, fee: Option<real>, now: int)
    requires Coupled(l) && Usable(book, fee)
    ensures Coupled(PlacesDue(l, book, fee, now))
    ensures l.places == [] ==> PlacesDue(l, book, fee, now) == l
    ensures PlacesDue(l, book, fee, now).cancels == l.cancels
    ensures l.order.state == Draft <==> PlacesDue(l, book, fee, now).order.state == Draft
  {
    SingleTime(l.places, now);
    if l.places != [] {
      if l.places[0] <= now {
        var l1 := l.(places := TimesAfter(l.places, now));
        LandCoupled(l1, book, fee, l.places[0]);
        LandKeeps(l1, book, fee, l.places[0]);
        assert TimesBy(l.places, now)[1..] == [];
        assert LandAll(Land(l1, book, fee, l.places[0]), book, fee, []) == Land(l1, book, fee, l.places[0]);
      } else {
        assert LandAll(l, book, fee, []) == l;
      }
    } else {
      assert l.(places := []) == l;
    }
  }

  lemma LandKeeps(l: Life, book: Option<Book>, fee: Option<real>, due: int)
    requires Sound(l) && l.order.state == Acked && Usable(book, fee)
    ensures Land(l, book, fee, due).cancels == l.cancels && Land(l, book, fee, due).order.state != Draft
  {
    if book.Some? && !book.value.dirty {
      TakeSound(l, fee, book.value);
    }
  }

  /** Due times are met in ascending order, each as often as it was recorded. */
  lemma {:induction false} TimesSorted(ts: seq<int>)
    ensures multiset(SortTimes(ts)) == multiset(ts)
    ensures forall i, j :: 0 <= i < j < |SortTimes(ts)| ==> SortTimes(ts)[i] <= SortTimes(ts)[j]
  {
    if ts != [] {
      TimesSorted(ts[1..]);
      TimeInserted(ts[0], SortTimes(ts[1..]));
      TimeKept(ts[0], SortTimes(ts[1..]));
      assert ts == [ts[0]] + ts[1..];
    }
  }

  lemma {:induction false} TimeInserted(t: int, ts: seq<int>)
    requires forall i, j :: 0 <= i < j < |ts| ==> ts[i] <= ts[j]
    ensures forall i, j :: 0 <= i < j < |InsertTime(t, ts)| ==> InsertTime(t, ts)[i] <= InsertTime(t, ts)[j]
  {
    if ts != [] && t > ts[0] {
      TimeInserted(t, ts[1..]);
      TimeKept(t, ts[1..]);
      var r := InsertTime(t, ts[1..]);
      forall k | 0 <= k < |r| ensures ts[0] <= r[k] {
        assert r[k] in multiset(r);
        assert r[k] == t || r[k] in ts[1..];
      }
    }
  }

  lemma {:induction false} TimeKept(t: int, ts: seq<int>)
    ensures multiset(InsertTime(t, ts)) == multiset(ts) + multiset{t}
  {
    if ts != [] && t > ts[0] {
      TimeKept(t, ts[1..]);
      assert ts == [ts[0]] + ts[1..];
    }
  }

  lemma {:induction false} CopiesAre(ts: seq<int>, due: int)
    ensures |CopyTimes(ts, due)| == |ts| && forall k :: 0 <= k < |ts| ==> CopyTimes(ts, due)[k] == due
  {
    if ts != [] { CopiesAre(ts[1..], due); }
  }

  /** cancel_all asks for one cancel per resting entry and per pending place of an order of the session, each due at the
      order's own time, and flags the order if it is open; it changes nothing else of it, and nothing of any other. */
  lemma CancelAllAsks(l: Life, slug: string, due: int)
    ensures var r := AskCancelAll(l, slug, due);
            && r == l.(cancels := r.cancels, order := l.order.(cancelRequested := r.order.cancelRequested))
            && (l.order.slug != slug ==> r == l)
            && (l.order.slug == slug ==>
                  && r.order.cancelRequested == (l.order.cancelRequested || !l.order.Terminal())
                  && |r.cancels| == |l.cancels| + (if l.rest.Some? then 1 else 0) + |l.places| && l.cancels <= r.cancels
                  && forall k :: |l.cancels| <= k < |r.cancels| ==> r.cancels[k] == due)
  {
    CopiesAre(l.places, due);
  }

  /** A cancel that arrives for an order past DRAFT removes it and leaves it terminal. */
  lemma DropCoupled(l: Life)
    requires Coupled(l)
    ensures l.order.state == Draft <==> Drop(l).raised
    ensures l.order.state != Draft ==>
              Coupled(Drop(l)) && Drop(l).order.Terminal() && Drop(l).places == [] && Drop(l).rest.None?
  {
  }

  lemma {:induction false} DropAllCoupled(l: Life, dues: seq<int>)
    requires Coupled(l)
    ensures DropAll(l, dues).raised <==> dues != [] && l.order.state == Draft
    ensures !DropAll(l, dues).raised ==> Coupled(DropAll(l, dues))
    ensures dues != [] && l.order.state != Draft ==>
              DropAll(l, dues).order.Terminal() && DropAll(l, dues).places == [] && DropAll(l, dues).rest.None?
    decreases dues
  {
    if dues != [] {
      DropCoupled(l);
      if l.order.state != Draft {
        DropAllCoupled(Drop(l), dues[1..]);
      }
    }
  }

  /** Cancels that arrive, the last of them raising or not, leave the order coupled; a DRAFT order they leave alone. */
  lemma {:induction false} DropAllCalm(l: Life, dues: seq<int>)
    requires Coupled(l)
    ensures Coupled(DropAll(l, dues).(raised := false))
    ensures l.order.state == Draft ==> DropAll(l, dues).(raised := false) == l
    ensures l.order.state != Draft ==> DropAll(l, dues).order.state != Draft
    decreases dues
  {
    if dues != [] {
      DropCoupled(l);
      if l.order.state != Draft { DropAllCalm(Drop(l), dues[1..]); }
    }
  }

  /** A cancel of a terminal order that is no longer tracked does nothing. */
  lemma {:induction false} DropTerminal(l: Life, dues: seq<int>)
    requires l.order.Terminal() && l.places == [] && l.rest.None?
    ensures DropAll(l, dues) == l
    decreases dues
  {
    if dues != [] {
      assert Drop(l) == l;
      DropTerminal(Drop(l), dues[1..]);
    }
  }

  lemma {:induction false} SortTimesEmpty(ts: seq<int>)
    ensures SortTimes(ts) == [] <==> ts == []
  {
  }

  /** process_due raises on an order exactly when a cancel falls due while the order is still in DRAFT. */
  lemma ElapseCoupled(l: Life, book: Option<Book>, fee: Option<real>, now: int)
    requires Coupled(l) && Usable(book, fee)
    ensures Elapse(l, book, fee, now).raised <==> l.order.state == Draft && TimesBy(l.cancels, now) != []
    ensures !Elapse(l, book, fee, now).raised ==> Coupled(Elapse(l, book, fee, now))
    ensures !Elapse(l, book, fee, now).raised && TimesBy(l.cancels, now) != [] ==>
              var r := Elapse(l, book, fee, now); r.order.Terminal() && r.places == [] && r.rest.None?
  {
    PlacesDueCoupled(l, book, fee, now);
    var l1 := PlacesDue(l, book, fee, now);
    SortTimesEmpty(TimesBy(l.cancels, now));
    DropAllCoupled(l1.(cancels := TimesAfter(l1.cancels, now)), SortTimes(TimesBy(l1.cancels, now)));
  }

  lemma TapeFits(l: Life, size: real)
    requires Coupled(l) && l.rest.Some? && OnLot(size) && TapeFill(l.rest.value, size) > 0.0
    ensures Fits(l, l.order.price, TapeFill(l.rest.value, size))
  {
    ZeroIsMultiple(LOT);
    MultipleDifference(size, Absorbed(l.rest.value, size), LOT);
    MultipleDifference(l.order.size, l.order.filled, LOT);
  }

  lemma AbsorbedOnGrid(r: Rest, size: real)
    requires OnLot(r.queueAhead) && OnLot(size)
    ensures OnLot(r.queueAhead - Absorbed(r, size))
  {
    ZeroIsMultiple(LOT);
    MultipleDifference(r.queueAhead, Absorbed(r, size), LOT);
  }

  lemma TapeCoupled(l: Life, fee: Option<real>, tp: Print)
    requires Coupled(l) && OnLot(tp.size)
    requires l.order.token == tp.token ==> FeeKnown(fee)
    ensures Coupled(Tape(l, fee, tp))
  {
    if l.rest.Some? && Through(l.order, l.rest.value, tp) {
      var r := l.rest.value;
      AbsorbedOnGrid(r, tp.size);
      var fill := TapeFill(r, tp.size);
      if fill > 0.0 { FilledCoupled(l, fee, fill, AfterTape(r, tp.size)) by { TapeFits(l, tp.size); } }
    }
  }

  /** On the lot grid a resting order is complete exactly when nothing is left of it. */
  lemma NothingLeft(l: Life, fill: real)
    requires Coupled(l) && l.rest.Some? && Fits(l, l.order.price, fill)
    ensures l.rest.value.remaining - fill <= SIZE_TOL <==> l.order.filled + fill == l.order.size
  {
    var left := l.rest.value.remaining - fill;
    MultipleDifference(l.order.size, l.order.filled, LOT);
    MultipleDifference(l.rest.value.remaining, fill, LOT);
    if left > 0.0 { LotGap(left); }
  }

  /** A resting order that is filled goes on with what is left, or leaves. */
  lemma FilledCoupled(l: Life, fee: Option<real>, fill: real, after: Rest)
    requires Coupled(l) && l.rest.Some? && FeeKnown(fee) && Fits(l, l.order.price, fill)
    requires after.remaining == l.rest.value.remaining - fill && OnLot(after.queueAhead)
    ensures var r := Emit(l.(rest := Some(after)), fee, l.order.price, fill, false);
            Coupled(if !r.raised && l.rest.value.remaining - fill <= SIZE_TOL then r.(rest := None) else r)
  {
    EmitSound(l.(rest := Some(after)), fee, l.order.price, fill, false);
    NothingLeft(l, fill);
  }

  /** Submitting raises exactly when the order is not in DRAFT. */
  lemma SendCoupled(l: Life, due: int)
    requires Coupled(l)
    ensures Send(l, due).raised <==> l.order.state != Draft
    ensures Send(l, due).raised ==> Send(l, due) == l.(raised := true)
    ensures !Send(l, due).raised ==> Coupled(Send(l, due))
  {
  }

  lemma AskCancelCoupled(l: Life, due: int)
    requires Coupled(l)
    ensures Coupled(AskCancel(l, due))
  {
  }

  lemma AskCancelAllCoupled(l: Life, slug: string, due: int)
    requires Coupled(l)
    ensures Coupled(AskCancelAll(l, slug, due))
  {
  }
}
