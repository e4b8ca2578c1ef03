/** The depth-limited taker walk of sim/shadow_exchange.py and what it is worth. */
module Matching {
  import opened Grid
  import opened Orders
  import opened Books

  datatype Quote = Quote(price: real, size: real)

  datatype Walked = Walked(quotes: seq<Quote>, remaining: real)

  function Opposite(side: Side): Side {
    if side == Buy then Sell else Buy
  }

  predicate InLimit(side: Side, limit: real, price: real) {
    if side == Buy then price <= limit + PRICE_TOL else price >= limit - PRICE_TOL
  }

  /** Takes what is visible at each level within the limit, best level first. */
  function Walk(side: Side, limit: real, levels: Levels, remaining: real): Walked {
    if levels == [] || !InLimit(side, limit, levels[0].price) || remaining <= 0.0 then
      Walked([], remaining)
    else
      var take := Min(levels[0].size, remaining);
      if take > 0.0 then
        var w := Walk(side, limit, levels[1..], remaining - take);
        Walked([Quote(levels[0].price, take)] + w.quotes, w.remaining)
      else
        Walk(side, limit, levels[1..], remaining)
  }

  /** The loop of ShadowExchange._taker_fill. */
  method WalkLevels(side: Side, limit: real, levels: Levels, size: real) returns (fills: seq<Quote>, remaining: real)
    ensures Walked(fills, remaining) == Walk(side, limit, levels, size)
  {
    fills, remaining := [], size;
    var k := 0;
    while k < |levels|
      invariant 0 <= k <= |levels|
      invariant var w := Walk(side, limit, levels[k..], remaining);
                Walk(side, limit, levels, size) == Walked(fills + w.quotes, w.remaining)
    {
      var lv := levels[k];
      assert levels[k..][0] == lv && levels[k..][1..] == levels[k + 1..];
      if !InLimit(side, limit, lv.price) || remaining <= 0.0 {
        break;
      }
      var take := Min(lv.size, remaining);
      if take > 0.0 {
        ghost var w := Walk(side, limit, levels[k + 1..], remaining - take);
        assert fills + ([Quote(lv.price, take)] + w.quotes) == fills + [Quote(lv.price, take)] + w.quotes;
        fills := fills + [Quote(lv.price, take)];
        remaining := remaining - take;
      }
      k := k + 1;
    }
    assert fills + [] == fills;
  }

  function TotalSize(qs: seq<Quote>): real {
    if qs == [] then 0.0 else qs[0].size + TotalSize(qs[1..])
  }

  function Value(qs: seq<Quote>): real {
    if qs == [] then 0.0 else qs[0].price * qs[0].size + Value(qs[1..])
  }

  /** The size on show within the limit. */
  function Visible(side: Side, limit: real, levels: Levels): real {
    if levels == [] then 0.0
    else (if InLimit(side, limit, levels[0].price) then Max(levels[0].size, 0.0) else 0.0)
         + Visible(side, limit, levels[1..])
  }

  lemma {:induction false} VisibleNonNegative(side: Side, limit: real, levels: Levels)
    ensures Visible(side, limit, levels) >= 0.0
  {
    if levels != [] { VisibleNonNegative(side, limit, levels[1..]); }
  }

  lemma {:induction false} NothingVisibleBehind(side: Side, limit: real, levels: Levels)
    requires BestFirst(Opposite(side), levels)
    requires levels != [] && !InLimit(side, limit, levels[0].price)
    ensures Visible(side, limit, levels) == 0.0
  {
    if |levels| > 1 {
      assert !Better(Opposite(side), levels[1].price, levels[0].price);
      NothingVisibleBehind(side, limit, levels[1..]);
    }
  }

  /** The walk fills exactly what size and visible depth allow, and what it leaves is the rest. */
  lemma {:induction false} WalkFillsVisible(side: Side, limit: real, levels: Levels, size: real)
    requires BestFirst(Opposite(side), levels) && size >= 0.0
    ensures var w := Walk(side, limit, levels, size);
            && TotalSize(w.quotes) == Min(size, Visible(side, limit, levels))
            && w.remaining == size - TotalSize(w.quotes)
  {
    VisibleNonNegative(side, limit, levels);
    if levels == [] || size <= 0.0 {
    } else if !InLimit(side, limit, levels[0].price) {
      NothingVisibleBehind(side, limit, levels);
    } else {
      var take := Min(levels[0].size, size);
      VisibleNonNegative(side, limit, levels[1..]);
      WalkFillsVisible(side, limit, levels[1..], if take > 0.0 then size - take else size);
    }
  }

  /** How much an allocation takes from each level. */
  type Allocation = seq<real>

  function Allocated(a: Allocation): real {
    if a == [] then 0.0 else a[0] + Allocated(a[1..])
  }

  /** What a taker pays per share at a price: negative when selling, where receiving more is better. */
  function Burden(side: Side, price: real): real {
    if side == Buy then price else -price
  }

  function Cost(side: Side, levels: Levels, a: Allocation): real
    requires |a| == |levels|
  {
    if a == [] then 0.0 else Product(Burden(side, levels[0].price), a[0]) + Cost(side, levels[1..], a[1..])
  }

  function WalkCost(side: Side, qs: seq<Quote>): real {
    if qs == [] then 0.0 else Product(Burden(side, qs[0].price), qs[0].size) + WalkCost(side, qs[1..])
  }

  /** Takes no more than is on show at any level, and nothing beyond the limit. */
  ghost predicate Feasible(side: Side, limit: real, levels: Levels, a: Allocation) {
    && |a| == |levels|
    && forall k :: 0 <= k < |a| ==>
         0.0 <= a[k] <= Max(levels[k].size, 0.0) && (a[k] > 0.0 ==> InLimit(side, limit, levels[k].price))
  }

  lemma {:induction false} AllocatedNonNegative(a: Allocation)
    requires forall k :: 0 <= k < |a| ==> a[k] >= 0.0
    ensures Allocated(a) >= 0.0
  {
    if a != [] { AllocatedNonNegative(a[1..]); }
  }

  lemma {:induction false} NothingAllocated(side: Side, levels: Levels, a: Allocation)
    requires |a| == |levels| && forall k :: 0 <= k < |a| ==> a[k] == 0.0
    ensures Allocated(a) == 0.0 && Cost(side, levels, a) == 0.0
  {
    if a != [] {
      NothingAllocated(side, levels[1..], a[1..]);
      assert a[0] == 0.0;
    }
  }

  lemma HeadIsBest(side: Side, levels: Levels)
    requires levels != [] && BestFirst(Opposite(side), levels)
    ensures BestFirst(Opposite(side), levels[1..])
    ensures forall lv <- levels[1..] :: Burden(side, levels[0].price) <= Burden(side, lv.price)
  {
    forall lv | lv in levels[1..] ensures Burden(side, levels[0].price) <= Burden(side, lv.price) {
      var k :| 0 <= k < |levels[1..]| && levels[1..][k] == lv;
      assert !Better(Opposite(side), levels[k + 1].price, levels[0].price);
    }
  }

  lemma BeyondLimit(side: Side, limit: real, levels: Levels, a: Allocation)
    requires levels != [] && BestFirst(Opposite(side), levels) && Feasible(side, limit, levels, a)
    requires !InLimit(side, limit, levels[0].price)
    ensures Allocated(a) == 0.0 && Cost(side, levels, a) == 0.0
  {
    forall k | 0 <= k < |a| ensures a[k] == 0.0 {
      assert k > 0 ==> !Better(Opposite(side), levels[k].price, levels[0].price);
    }
    NothingAllocated(side, levels, a);
  }

  /** What the walk takes from its first level. */
  function FirstTake(levels: Levels, size: real): real
    requires levels != []
  {
    if size <= 0.0 then 0.0 else Max(Min(levels[0].size, size), 0.0)
  }

  lemma WalkStep(side: Side, limit: real, levels: Levels, size: real)
    requires levels != [] && InLimit(side, limit, levels[0].price) && size >= 0.0
    ensures var w, rest := Walk(side, limit, levels, size), Walk(side, limit, levels[1..], size - FirstTake(levels, size));
            && TotalSize(w.quotes) == FirstTake(levels, size) + TotalSize(rest.quotes)
            && WalkCost(side, w.quotes) == Product(Burden(side, levels[0].price), FirstTake(levels, size)) + WalkCost(side, rest.quotes)
  {
    var w, take, h := Walk(side, limit, levels, size), FirstTake(levels, size), Burden(side, levels[0].price);
    if take > 0.0 {
      var rest := Walk(side, limit, levels[1..], size - take);
      assert w.quotes == [Quote(levels[0].price, take)] + rest.quotes;
      assert w.quotes[1..] == rest.quotes;
    } else {
      assert take == 0.0;
      assert w.quotes == Walk(side, limit, levels[1..], size - take).quotes;
      ZeroExcess(h, take);
    }
  }

  /** An allocation of at least the walk's total leaves at least the walk's rest for the later levels. */
  lemma RestCovers(side: Side, limit: real, levels: Levels, size: real, a: Allocation)
    requires levels != [] && InLimit(side, limit, levels[0].price) && size >= 0.0
    requires BestFirst(Opposite(side), levels) && Feasible(side, limit, levels, a)
    requires Allocated(a) >= TotalSize(Walk(side, limit, levels, size).quotes)
    ensures Allocated(a[1..]) >= TotalSize(Walk(side, limit, levels[1..], size - FirstTake(levels, size)).quotes)
    ensures BestFirst(Opposite(side), levels[1..]) && Feasible(side, limit, levels[1..], a[1..])
  {
    HeadIsBest(side, levels);
    WalkStep(side, limit, levels, size);
    AllocatedNonNegative(a[1..]);
    VisibleNonNegative(side, limit, levels[1..]);
    WalkFillsVisible(side, limit, levels[1..], size - FirstTake(levels, size));
  }

  /** Shifting an excess from the later levels, which cost at least h, to the first one, which costs h. */
  lemma Combine(h: real, floor: real, a0: real, take: real, aRest: real, gRest: real, cRest: real, vRest: real,
                aAll: real, gAll: real, cAll: real, vAll: real)
    requires floor <= h && aAll >= gAll
    requires cRest >= vRest + Product(h, aRest - gRest)
    requires aAll == a0 + aRest && gAll == take + gRest
    requires cAll == Product(h, a0) + cRest && vAll == Product(h, take) + vRest
    ensures cAll >= vAll + Product(floor, aAll - gAll)
  {
    assert cAll - vAll >= h * (a0 - take) + h * (aRest - gRest) == h * (aAll - gAll);
    assert h * (aAll - gAll) >= floor * (aAll - gAll);
  }

  lemma CostStep(side: Side, levels: Levels, a: Allocation)
    requires levels != [] && |a| == |levels|
    ensures Allocated(a) == a[0] + Allocated(a[1..])
    ensures Cost(side, levels, a) == Product(Burden(side, levels[0].price), a[0]) + Cost(side, levels[1..], a[1..])
  {
  }

  lemma GreedyStep(side: Side, limit: real, levels: Levels, size: real, a: Allocation, floor: real)
    requires levels != [] && |a| == |levels| && InLimit(side, limit, levels[0].price) && size >= 0.0
    requires floor <= Burden(side, levels[0].price)
    requires var rest := Walk(side, limit, levels[1..], size - FirstTake(levels, size));
             Cost(side, levels[1..], a[1..])
             >= WalkCost(side, rest.quotes) + Product(Burden(side, levels[0].price), Allocated(a[1..]) - TotalSize(rest.quotes))
    requires Allocated(a) >= TotalSize(Walk(side, limit, levels, size).quotes)
    ensures var w := Walk(side, limit, levels, size);
            Cost(side, levels, a) >= WalkCost(side, w.quotes) + Product(floor, Allocated(a) - TotalSize(w.quotes))
  {
    WalkStep(side, limit, levels, size);
    CostStep(side, levels, a);
    Combine(Burden(side, levels[0].price), floor, a[0], FirstTake(levels, size), Allocated(a[1..]),
            TotalSize(Walk(side, limit, levels[1..], size - FirstTake(levels, size)).quotes),
            Cost(side, levels[1..], a[1..]),
            WalkCost(side, Walk(side, limit, levels[1..], size - FirstTake(levels, size)).quotes),
            Allocated(a), TotalSize(Walk(side, limit, levels, size).quotes),
            Cost(side, levels, a), WalkCost(side, Walk(side, limit, levels, size).quotes));
  }

  /** Every feasible allocation that takes at least as much pays at least the floor price for the excess. */
  lemma {:induction false} GreedyCheapest(side: Side, limit: real, levels: Levels, size: real, a: Allocation, floor: real)
    requires BestFirst(Opposite(side), levels) && size >= 0.0 && Feasible(side, limit, levels, a)
    requires forall lv <- levels :: floor <= Burden(side, lv.price)
    requires Allocated(a) >= TotalSize(Walk(side, limit, levels, size).quotes)
    ensures var w := Walk(side, limit, levels, size);
            Cost(side, levels, a) >= WalkCost(side, w.quotes) + Product(floor, Allocated(a) - TotalSize(w.quotes))
  {
    if levels == [] {
    } else if !InLimit(side, limit, levels[0].price) {
      BeyondLimit(side, limit, levels, a);
    } else {
      HeadIsBest(side, levels);
      RestCovers(side, limit, levels, size, a);
      GreedyCheapest(side, limit, levels[1..], size - FirstTake(levels, size), a[1..], Burden(side, levels[0].price));
      GreedyStep(side, limit, levels, size, a, floor);
    }
  }

  lemma ZeroExcess(floor: real, excess: real)
    requires excess == 0.0
    ensures Product(floor, excess) == 0.0
  {
  }

  lemma {:induction false} WalkCostIsValue(side: Side, qs: seq<Quote>)
    ensures WalkCost(side, qs) == Burden(side, Value(qs))
  {
    if qs != [] { WalkCostIsValue(side, qs[1..]); }
  }

  /** Among all ways of taking the same total from the visible depth within the limit, the greedy walk pays
      least when buying and receives most when selling. */
  lemma GreedyOptimal(side: Side, limit: real, levels: Levels, size: real, a: Allocation)
    requires BestFirst(Opposite(side), levels) && size >= 0.0 && Feasible(side, limit, levels, a)
    requires Allocated(a) == TotalSize(Walk(side, limit, levels, size).quotes)
    ensures Burden(side, Value(Walk(side, limit, levels, size).quotes)) <= Cost(side, levels, a)
  {
    var w := Walk(side, limit, levels, size);
    var floor := LowestBurden(side, levels);
    GreedyCheapest(side, limit, levels, size, a, floor);
    ZeroExcess(floor, Allocated(a) - TotalSize(w.quotes));
    WalkCostIsValue(side, w.quotes);
  }

  lemma {:induction false} LowestBurden(side: Side, levels: Levels) returns (floor: real)
    ensures forall lv <- levels :: floor <= Burden(side, lv.price)
  {
    if levels == [] {
      floor := 0.0;
    } else {
      var rest := LowestBurden(side, levels[1..]);
      floor := Min(rest, Burden(side, levels[0].price));
      assert levels == [levels[0]] + levels[1..];
    }
  }

  /** The quotes an allocation amounts to, level by level. */
  function QuotesOf(levels: Levels, a: Allocation): seq<Quote>
    requires |a| == |levels|
  {
    if a == [] then []
    else (if a[0] > 0.0 then [Quote(levels[0].price, a[0])] else []) + QuotesOf(levels[1..], a[1..])
  }

  lemma NothingQuoted(levels: Levels) returns (a: Allocation)
    ensures |a| == |levels| && Allocated(a) == 0.0 && QuotesOf(levels, a) == [] && forall k :: 0 <= k < |a| ==> a[k] == 0.0
  {
    a := [];
    if levels != [] {
      var rest := NothingQuoted(levels[1..]);
      a := [0.0] + rest;
    }
  }

  /** The walk is itself a way of taking from the visible levels: its quotes are at the levels' own prices, no more than
      each shows and nothing beyond the limit. */
  lemma {:induction false} WalkIsFeasible(side: Side, limit: real, levels: Levels, size: real) returns (a: Allocation)
    requires BestFirst(Opposite(side), levels)
    ensures Feasible(side, limit, levels, a) && QuotesOf(levels, a) == Walk(side, limit, levels, size).quotes
    decreases levels
  {
    if levels == [] || !InLimit(side, limit, levels[0].price) || size <= 0.0 {
      a := NothingQuoted(levels);
    } else {
      var take := Min(levels[0].size, size);
      var rest := WalkIsFeasible(side, limit, levels[1..], if take > 0.0 then size - take else size);
      a := [Max(take, 0.0)] + rest;
    }
  }

  /** What the quotes of an allocation add up to. */
  lemma {:induction false} QuotesOfAdd(side: Side, levels: Levels, a: Allocation)
    requires |a| == |levels| && forall k :: 0 <= k < |a| ==> a[k] >= 0.0
    ensures TotalSize(QuotesOf(levels, a)) == Allocated(a) && WalkCost(side, QuotesOf(levels, a)) == Cost(side, levels, a)
  {
    if a != [] {
      QuotesOfAdd(side, levels[1..], a[1..]);
      var rest := QuotesOf(levels[1..], a[1..]);
      if a[0] > 0.0 {
        var quotes := [Quote(levels[0].price, a[0])] + rest;
        assert quotes[1..] == rest;
      } else {
        assert [] + rest == rest;
        ZeroExcess(Burden(side, levels[0].price), a[0]);
      }
    }
  }

  /** So the walk costs exactly what the cheapest feasible allocation of its total costs. */
  lemma WalkIsCheapest(side: Side, limit: real, levels: Levels, size: real) returns (a: Allocation)
    requires BestFirst(Opposite(side), levels) && size >= 0.0
    ensures var quotes := Walk(side, limit, levels, size).quotes;
            && Feasible(side, limit, levels, a) && QuotesOf(levels, a) == quotes
            && Allocated(a) == TotalSize(quotes) == Min(size, Visible(side, limit, levels))
            && Cost(side, levels, a) == Burden(side, Value(quotes))
            && forall other :: Feasible(side, limit, levels, other) && Allocated(other) == Allocated(a) ==>
                 Cost(side, levels, a) <= Cost(side, levels, other)
  {
    var quotes := Walk(side, limit, levels, size).quotes;
    a := WalkIsFeasible(side, limit, levels, size);
    QuotesOfAdd(side, levels, a);
    WalkCostIsValue(side, quotes);
    WalkFillsVisible(side, limit, levels, size);
    forall other | Feasible(side, limit, levels, other) && Allocated(other) == Allocated(a)
      ensures Cost(side, levels, a) <= Cost(side, levels, other)
    {
      GreedyOptimal(side, limit, levels, size, other);
    }
  }

  /** On the tick grid a buyer's limit admits exactly the prices up to it, a seller's those from it on. */
  lemma LimitMeans(side: Side, limit: real, price: real)
    requires OnTick(limit) && OnTick(price)
    ensures InLimit(side, limit, price) <==> if side == Buy then price <= limit else price >= limit
  {
    if price <= limit + PRICE_TOL { TickGap(price, limit); }
    if limit <= price + PRICE_TOL { TickGap(limit, price); }
  }

  ghost predicate QuotesOk(side: Side, limit: real, qs: seq<Quote>) {
    forall q <- qs ::
      q.size > 0.0 && OnLot(q.size) && q.price >= 0.0 && OnTick(q.price) && InLimit(side, limit, q.price)
  }

  /** On the grids every quote of the walk is a positive number of lots within the limit. */
  lemma {:induction false} WalkOnGrid(side: Side, limit: real, levels: Levels, size: real)
    requires LevelsOnGrid(levels) && OnLot(size) && size >= 0.0
    ensures var w := Walk(side, limit, levels, size);
            && QuotesOk(side, limit, w.quotes)
            && w.remaining == size - TotalSize(w.quotes) && w.remaining >= 0.0 && OnLot(w.remaining)
  {
    if levels == [] || !InLimit(side, limit, levels[0].price) || size <= 0.0 {
    } else {
      var take := Min(levels[0].size, size);
      assert levels[0] in levels && forall lv <- levels[1..] :: lv in levels;
      MultipleDifference(size, take, LOT);
      WalkOnGrid(side, limit, levels[1..], if take > 0.0 then size - take else size);
    }
  }
}
