/** Off the lot grid: the taker walk goes on while anything at all remains, but the order is full at its size less
    the size tolerance. Exactly when this makes a taker order raise. */
module Slivers {
  import opened Grid
  import opened Orders
  import opened Books
  import opened Matching
  import opened Exchange
  import opened OneOrder

  /** The first k quotes, with more to come, already complete an order of which so much was filled before. */
  predicate CompletedEarly(size: real, filled: real, quotes: seq<Quote>, k: nat)
    requires k <= |quotes|
  {
    0 < k < |quotes| && filled + TotalSize(quotes[..k]) >= size - SIZE_TOL
  }

  ghost predicate Sliver(size: real, filled: real, quotes: seq<Quote>) {
    exists k: nat :: k <= |quotes| && CompletedEarly(size, filled, quotes, k)
  }

  ghost predicate Positive(quotes: seq<Quote>) {
    forall q <- quotes :: q.size > 0.0
  }

  lemma {:induction false} WalkPositive(side: Side, limit: real, levels: Levels, remaining: real)
    ensures Positive(Walk(side, limit, levels, remaining).quotes)
  {
    if levels != [] && InLimit(side, limit, levels[0].price) && remaining > 0.0 {
      var take := Min(levels[0].size, remaining);
      WalkPositive(side, limit, levels[1..], if take > 0.0 then remaining - take else remaining);
    }
  }

  /** One quote more in front. */
  lemma SliverStep(size: real, filled: real, quotes: seq<Quote>)
    requires |quotes| > 1
    ensures Sliver(size, filled, quotes)
            <==> filled + quotes[0].size >= size - SIZE_TOL || Sliver(size, filled + quotes[0].size, quotes[1..])
  {
    var rest := quotes[1..];
    if Sliver(size, filled, quotes) {
      var k: nat :| k <= |quotes| && CompletedEarly(size, filled, quotes, k);
      PrefixTotal(quotes, k);
      if k > 1 { assert CompletedEarly(size, filled + quotes[0].size, rest, k - 1); }
    }
    if filled + quotes[0].size >= size - SIZE_TOL {
      PrefixTotal(quotes, 1);
      assert CompletedEarly(size, filled, quotes, 1);
    }
    if Sliver(size, filled + quotes[0].size, rest) {
      var k: nat :| k <= |rest| && CompletedEarly(size, filled + quotes[0].size, rest, k);
      PrefixTotal(quotes, k + 1);
      assert CompletedEarly(size, filled, quotes, k + 1);
    }
  }

  lemma PrefixTotal(quotes: seq<Quote>, k: nat)
    requires 0 < k <= |quotes|
    ensures TotalSize(quotes[..k]) == quotes[0].size + TotalSize(quotes[1..][..k - 1])
  {
    assert quotes[..k][1..] == quotes[1..][..k - 1];
  }

  predicate Taking(l: Life, fee: Option<real>) {
    !l.raised && l.acked && Live(l) && fee.Some?
  }

  lemma EmitOne(l: Life, fee: Option<real>, q: Quote)
    requires Taking(l, fee) && q.size > 0.0
    ensures var r := Emit(l, fee, q.price, q.size, true);
            && !r.raised && r.acked && r.order.size == l.order.size
            && (if l.order.filled + q.size >= l.order.size - SIZE_TOL
                then r.order.state == Filled && r.order.filled >= l.order.size - SIZE_TOL
                else r.order.state == Partial && r.order.filled == l.order.filled + q.size)
  {
  }

  lemma EmitAfterFilled(l: Life, fee: Option<real>, quotes: seq<Quote>)
    requires !l.raised && l.acked && l.order.state == Filled && fee.Some?
    requires l.order.filled >= l.order.size - SIZE_TOL && quotes != [] && quotes[0].size > 0.0
    ensures EmitQuotes(l, fee, quotes).raised
  {
    assert Emit(l, fee, quotes[0].price, quotes[0].size, true).raised;
  }

  lemma {:induction false} EmittedRaise(l: Life, fee: Option<real>, quotes: seq<Quote>)
    requires Taking(l, fee) && Positive(quotes)
    ensures EmitQuotes(l, fee, quotes).raised <==> Sliver(l.order.size, l.order.filled, quotes)
    ensures quotes != [] && !EmitQuotes(l, fee, quotes).raised ==> EmitQuotes(l, fee, quotes).order.state in {Partial, Filled}
    decreases quotes
  {
    if quotes != [] {
      var q, rest := quotes[0], quotes[1..];
      assert q in quotes && forall x <- rest :: x in quotes;
      EmitOne(l, fee, q);
      var l1 := Emit(l, fee, q.price, q.size, true);
      if rest != [] {
        assert rest[0] in rest;
        SliverStep(l.order.size, l.order.filled, quotes);
        if l1.order.state == Filled {
          EmitAfterFilled(l1, fee, rest);
        } else {
          EmittedRaise(l1, fee, rest);
        }
      }
    }
  }

  // ---- the same, on the book

  /** The first j levels leave a sliver of this size to be had, and something is visible behind them. */
  predicate LeavesSliver(side: Side, limit: real, levels: Levels, size: real, j: nat)
    requires j <= |levels|
  {
    var seen := Visible(side, limit, levels[..j]);
    seen > 0.0 && 0.0 < size - seen <= SIZE_TOL && Visible(side, limit, levels[j..]) > 0.0
  }

  ghost predicate ShowsSliver(side: Side, limit: real, levels: Levels, size: real) {
    exists j: nat :: j <= |levels| && LeavesSliver(side, limit, levels, size, j)
  }

  lemma VisibleSplit(side: Side, limit: real, levels: Levels, j: nat)
    requires 0 < j <= |levels|
    ensures Visible(side, limit, levels[..j]) == Visible(side, limit, levels[..1]) + Visible(side, limit, levels[1..][..j - 1])
    ensures levels[j..] == levels[1..][j - 1..]
  {
    assert levels[..j][0] == levels[0] && levels[..j][1..] == levels[1..][..j - 1];
    assert levels[..1][1..] == [];
  }

  lemma {:induction false} VisibleWhole(side: Side, limit: real, levels: Levels, j: nat)
    requires j <= |levels|
    ensures Visible(side, limit, levels) == Visible(side, limit, levels[..j]) + Visible(side, limit, levels[j..])
  {
    if j == 0 {
      assert levels[..0] == [] && levels[0..] == levels;
    } else {
      VisibleSplit(side, limit, levels, j);
      VisibleWhole(side, limit, levels[1..], j - 1);
      assert levels[..1][1..] == [];
    }
  }

  /** A level that shows nothing within the limit. */
  lemma HiddenStep(side: Side, limit: real, levels: Levels, size: real)
    requires levels != [] && Visible(side, limit, levels[..1]) == 0.0
    ensures ShowsSliver(side, limit, levels, size) <==> ShowsSliver(side, limit, levels[1..], size)
  {
    var rest := levels[1..];
    if ShowsSliver(side, limit, levels, size) {
      var j: nat :| j <= |levels| && LeavesSliver(side, limit, levels, size, j);
      assert levels[..0] == [];
      VisibleSplit(side, limit, levels, j);
      assert LeavesSliver(side, limit, rest, size, j - 1);
    }
    if ShowsSliver(side, limit, rest, size) {
      var j: nat :| j <= |rest| && LeavesSliver(side, limit, rest, size, j);
      VisibleSplit(side, limit, levels, j + 1);
      assert LeavesSliver(side, limit, levels, size, j + 1);
    }
  }

  /** A level that is taken whole, with more behind it. */
  lemma ShownStep(side: Side, limit: real, levels: Levels, size: real, shown: real)
    requires levels != [] && shown == Visible(side, limit, levels[..1]) && 0.0 < shown < size
    requires Visible(side, limit, levels[1..]) > 0.0
    ensures ShowsSliver(side, limit, levels, size)
            <==> size - shown <= SIZE_TOL || ShowsSliver(side, limit, levels[1..], size - shown)
  {
    var rest := levels[1..];
    if size - shown <= SIZE_TOL {
      assert LeavesSliver(side, limit, levels, size, 1);
    }
    if ShowsSliver(side, limit, levels, size) && size - shown > SIZE_TOL {
      var j: nat :| j <= |levels| && LeavesSliver(side, limit, levels, size, j);
      assert levels[..0] == [];
      VisibleSplit(side, limit, levels, j);
      assert LeavesSliver(side, limit, rest, size - shown, j - 1);
    }
    if ShowsSliver(side, limit, rest, size - shown) {
      var j: nat :| j <= |rest| && LeavesSliver(side, limit, rest, size - shown, j);
      VisibleSplit(side, limit, levels, j + 1);
      assert LeavesSliver(side, limit, levels, size, j + 1);
    }
  }

  lemma NoSliver(side: Side, limit: real, levels: Levels, size: real)
    requires size <= 0.0 || Visible(side, limit, levels) == 0.0
    ensures !ShowsSliver(side, limit, levels, size)
  {
    forall j: nat | j <= |levels| ensures !LeavesSliver(side, limit, levels, size, j) {
      VisibleWhole(side, limit, levels, j);
      VisibleNonNegative(side, limit, levels[..j]);
      VisibleNonNegative(side, limit, levels[j..]);
    }
  }

  /** The walk leaves a sliver exactly when the book shows one. */
  lemma {:induction false} WalkSliver(side: Side, limit: real, levels: Levels, size: real, filled: real, left: real)
    requires BestFirst(Opposite(side), levels) && left == size - filled
    ensures Sliver(size, filled, Walk(side, limit, levels, left).quotes) <==> ShowsSliver(side, limit, levels, left)
    decreases levels
  {
    if levels == [] || left <= 0.0 {
      NoSliver(side, limit, levels, left);
    } else if !InLimit(side, limit, levels[0].price) {
      NothingVisibleBehind(side, limit, levels);
      NoSliver(side, limit, levels, left);
    } else {
      assert levels[..1][1..] == [] && Visible(side, limit, levels[..1]) == Max(levels[0].size, 0.0);
      if levels[0].size <= 0.0 {
        WalkSliver(side, limit, levels[1..], size, filled, left);
        HiddenStep(side, limit, levels, left);
      } else {
        WalkSliverTaken(side, limit, levels, size, filled, left);
      }
    }
  }

  lemma {:induction false} WalkSliverTaken(side: Side, limit: real, levels: Levels, size: real, filled: real, left: real)
    requires BestFirst(Opposite(side), levels) && left == size - filled && left > 0.0
    requires levels != [] && InLimit(side, limit, levels[0].price)
    requires 0.0 < levels[0].size == Visible(side, limit, levels[..1])
    ensures Sliver(size, filled, Walk(side, limit, levels, left).quotes) <==> ShowsSliver(side, limit, levels, left)
    decreases levels, 0
  {
    var take, rest := Min(levels[0].size, left), levels[1..];
    var quotes, more := Walk(side, limit, levels, left).quotes, Walk(side, limit, rest, left - take).quotes;
    assert quotes == [Quote(levels[0].price, take)] + more && quotes[1..] == more;
    WalkFillsVisible(side, limit, rest, left - take);
    VisibleNonNegative(side, limit, rest);
    if more == [] {
      assert !Sliver(size, filled, quotes);
      VisibleWhole(side, limit, levels, 1);
      NothingBehind(side, limit, levels, left);
    } else {
      MoreMeans(side, limit, rest, left - take);
      SliverStep(size, filled, quotes);
      WalkSliver(side, limit, rest, size, filled + take, left - take);
      ShownStep(side, limit, levels, left, take);
    }
  }

  lemma NothingBehind(side: Side, limit: real, levels: Levels, size: real)
    requires levels != [] && (size <= Visible(side, limit, levels[..1]) || Visible(side, limit, levels[1..]) == 0.0)
    ensures !ShowsSliver(side, limit, levels, size)
  {
    forall j: nat | j <= |levels| ensures !LeavesSliver(side, limit, levels, size, j) {
      if j == 0 {
        assert levels[..0] == [];
      } else {
        VisibleSplit(side, limit, levels, j);
        VisibleWhole(side, limit, levels[1..], j - 1);
        VisibleNonNegative(side, limit, levels[1..][..j - 1]);
        VisibleNonNegative(side, limit, levels[j..]);
      }
    }
  }

  lemma MoreMeans(side: Side, limit: real, levels: Levels, left: real)
    requires BestFirst(Opposite(side), levels) && left >= 0.0 && Walk(side, limit, levels, left).quotes != []
    ensures left > 0.0 && Visible(side, limit, levels) > 0.0
  {
    var quotes := Walk(side, limit, levels, left).quotes;
    WalkPositive(side, limit, levels, left);
    WalkFillsVisible(side, limit, levels, left);
    TotalPositive(quotes);
  }

  lemma {:induction false} TotalPositive(quotes: seq<Quote>)
    requires Positive(quotes)
    ensures TotalSize(quotes) >= 0.0 && (quotes != [] ==> TotalSize(quotes) > 0.0)
  {
    if quotes != [] {
      assert quotes[0] in quotes && forall q <- quotes[1..] :: q in quotes;
      TotalPositive(quotes[1..]);
    }
  }

  /** The 64 best levels a taker order walks. */
  function Reached(o: Order, b: Book): Levels {
    TopLevels(Opposite(o.side), b.Of(Opposite(o.side)), 64)
  }

  /** A fill-or-kill order that is killed shows no sliver. */
  lemma KilledShowsNone(o: Order, b: Book)
    requires o.size >= 0.0 && Walk(o.side, o.price, Reached(o, b), o.size).remaining > SIZE_TOL
    ensures !ShowsSliver(o.side, o.price, Reached(o, b), o.size)
  {
    var levels := Reached(o, b);
    TopLevelsRank(Opposite(o.side), b.Of(Opposite(o.side)), 64);
    WalkFillsVisible(o.side, o.price, levels, o.size);
    forall j: nat | j <= |levels| ensures !LeavesSliver(o.side, o.price, levels, o.size, j) {
      VisibleWhole(o.side, o.price, levels, j);
      VisibleNonNegative(o.side, o.price, levels[j..]);
    }
  }

  /** On any book, at any sizes, a fresh taker order raises IllegalTransition if and only if, for some number of its
      best levels, what they show within the limit falls short of the order's size, by no more than the size
      tolerance, and some further level within the limit shows anything at all. */
  lemma TakerRaisesIff(l: Life, fee: Option<real>, b: Book)
    requires Taking(l, fee) && l.order.state == Acked && l.order.filled == 0.0
    ensures Take(l, fee, b).raised <==> ShowsSliver(l.order.side, l.order.price, Reached(l.order, b), l.order.size)
  {
    var o, levels := l.order, Reached(l.order, b);
    TopLevelsRank(Opposite(o.side), b.Of(Opposite(o.side)), 64);
    WalkPositive(o.side, o.price, levels, o.size);
    EmittedRaise(l, fee, TakerQuotes(o, b).quotes);
    WalkSliver(o.side, o.price, levels, o.size, 0.0, o.size);
    if o.size < 0.0 { NoSliver(o.side, o.price, levels, o.size); }
    if o.size >= 0.0 && Walk(o.side, o.price, levels, o.size).remaining > SIZE_TOL { KilledShowsNone(o, b); }
  }

  const NEAR_ASK: Level := Level("0.5", 0.5, 0.9999999995)
  const FAR_ASK: Level := Level("0.6", 0.6, 1.0)

  /** An order for one share, half a billionth more than the first ask shows: the rest is taken from the second ask,
      and raises. */
  lemma SliverExample(o: Order, b: Book)
    requires o == NewOrder("w", "up", Buy, 0.6, 1.0, FAK).(state := Acked) && b == Book([], [NEAR_ASK, FAR_ASK], false)
    ensures Take(Life(0, o, [], [], None, true, [], false), Some(0.0), b).raised
  {
    var levels := [NEAR_ASK, FAR_ASK];
    assert levels[1..] == [FAR_ASK] && [FAR_ASK][1..] == [];
    assert Ranked(Sell, [FAR_ASK]) == [FAR_ASK];
    assert Reached(o, b) == levels;
    assert levels[..1] == [NEAR_ASK] && [NEAR_ASK][1..] == [];
    assert LeavesSliver(Buy, 0.6, levels, 1.0, 1);
    TakerRaisesIff(Life(0, o, [], [], None, true, [], false), Some(0.0), b);
  }

  /** A fill that raises has already moved the order's filled size, but accounting never hears of it. */
  lemma RaisingFillIsLost(l: Life, fee: Option<real>, price: real, size: real, taker: bool)
    requires !l.raised && Emit(l, fee, price, size, taker).raised && fee.Some?
    ensures var r := Emit(l, fee, price, size, taker);
            && r.fills == l.fills && r.order.state == l.order.state
            && r.order.filled == Min(l.order.filled + size, l.order.size) >= l.order.size - SIZE_TOL
            && l.order.state !in {Sent, Acked, Partial, Canceled}
  {
  }
}
