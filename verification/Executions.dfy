/** At what prices, sizes and fees fills are made, written out fill by fill, and what they move in the accounts. */
module Executions {
  import opened Grid
  import opened Orders
  import opened Books
  import opened Matching
  import opened Exchange
  import opened OneOrder
  import opened Projection
  import opened Ledger

  // ---- one order

  /** The k-th trade of the order, field by field. */
  lemma TakerTradeAt(l: Life, rate: real, b: Book, k: nat)
    requires Sound(l) && l.order.state == Acked && 0.0 <= rate <= 1.0 && BookOnGrid(b)
    requires k < |TakerQuotes(l.order, b).quotes|
    ensures var q, fills := TakerQuotes(l.order, b).quotes[k], Take(l, Some(rate), b).fills;
            var fee := if 0.0 < q.price < 1.0 then rate * q.price * (1.0 - q.price) * q.size else 0.0;
            && |fills| == |l.fills| + |TakerQuotes(l.order, b).quotes| && fills[..|l.fills|] == l.fills
            && fills[|l.fills| + k] == if l.order.side == Buy then Exec(q.price, q.size, fee, 0.0) else Exec(q.price, q.size, 0.0, fee)
  {
    TakeSound(l, Some(rate), b);
    TakerExecsAt(l.order.side, rate, TakerQuotes(l.order, b).quotes, k);
  }

  // ---- the print

  /** The print is of the order's token, comes when the order is active, and trades at its price or through it. */
  predicate Eligible(o: Order, activeFrom: int, tp: Print) {
    && tp.token == o.token && tp.recv >= activeFrom
    && (if o.side == Buy then tp.price <= o.price + 0.000000000001 else tp.price >= o.price - 0.000000000001)
  }

  lemma EligibleIs(o: Order, r: Rest, tp: Print)
    ensures Through(o, r, tp) <==> Eligible(o, r.activeFrom, tp)
  {
  }

  /** On the tick grid the tolerance lets nothing else through. */
  lemma EligibleOnTicks(o: Order, activeFrom: int, tp: Print)
    requires OnTick(o.price) && OnTick(tp.price)
    ensures Eligible(o, activeFrom, tp)
            <==> tp.token == o.token && tp.recv >= activeFrom && (if o.side == Buy then tp.price <= o.price else tp.price >= o.price)
  {
    if tp.price <= o.price + PRICE_TOL { TickGap(tp.price, o.price); }
    if o.price <= tp.price + PRICE_TOL { TickGap(o.price, tp.price); }
  }

  /** What a print leaves for a resting order once the queue ahead has had its part. */
  function LeftFor(r: Rest, size: real): real {
    Min(r.remaining, size - Max(r.queueAhead, 0.0))
  }

  /** A print tells a resting order of at most one fill: at the order's own price, without a fee, and of what is left
      for it; none if nothing is left or the print does not trade through. */
  lemma TapeTells(l: Life, rate: real, tp: Print)
    requires l.acked && tp.size >= 0.0 && !Tape(l, Some(rate), tp).raised
    ensures Tape(l, Some(rate), tp).fills
            == if l.rest.Some? && Eligible(l.order, l.rest.value.activeFrom, tp) && LeftFor(l.rest.value, tp.size) > 0.0
               then l.fills + [Exec(l.order.price, LeftFor(l.rest.value, tp.size), 0.0, 0.0)] else l.fills
  {
    if l.rest.Some? {
      EligibleIs(l.order, l.rest.value, tp);
      var r, fill := l.rest.value, TapeFill(l.rest.value, tp.size);
      if Through(l.order, r, tp) && fill > 0.0 {
        assert fill == LeftFor(r, tp.size);
        EmitTells(l.(rest := Some(AfterTape(r, tp.size))), rate, l.order.price, fill, false);
      }
    }
  }

  // ---- the journal

  /** An acknowledged order of a core that has not raised, its market's fee rate known. */
  ghost predicate Ready(c: Core, m: Market, id: nat) {
    Orderly(c) && !c.fault && id < |c.orders| && id in c.acked && m.FeeOf(c.orders[id].token).Some?
  }

  /** The postings of a run of quotes for order id, numbered from n + 1. */
  function Postings(o: Order, id: nat, rate: real, quotes: seq<Quote>, n: nat): seq<Posting> {
    if quotes == [] then []
    else [PostingOf(o, id, TakerExec(o.side, rate, quotes[0]), n + 1)] + Postings(o, id, rate, quotes[1..], n + 1)
  }

  /** A trade under its order's session, with its token and side. */
  function PostingOf(o: Order, id: nat, e: Exec, number: nat): Posting {
    Posting(o.slug, id, Fill(ExchangeRef(id), o.token, o.side, e.price, e.size, e.feeShares, e.feeUsdc, Shadow(number)))
  }

  /** The journal once order id has had one fill more. */
  function Emitted(c: Core, id: nat, rate: real, price: real, size: real, taker: bool): seq<Posting>
    requires id < |c.orders|
  {
    c.journal + [PostingOf(c.orders[id], id, Executed(c.orders[id].side, rate, price, size, taker), c.tradeSeq + 1)]
  }

  lemma EmitPosts(c: Core, m: Market, id: nat, rate: real, price: real, size: real, taker: bool)
    requires Orderly(c) && !c.fault && id < |c.orders| && id in c.acked && m.FeeOf(c.orders[id].token) == Some(rate)
    requires !EmitFill(c, m, id, price, size, taker).fault
    ensures var r, o := EmitFill(c, m, id, price, size, taker), c.orders[id];
            && r.tradeSeq == c.tradeSeq + 1
            && r.journal == c.journal + [PostingOf(o, id, Executed(o.side, rate, price, size, taker), c.tradeSeq + 1)]
            && r.orders[id].slug == o.slug && r.orders[id].token == o.token && r.orders[id].side == o.side
  {
    MadeAs(c.orders[id], id, rate, price, size, taker, c.tradeSeq + 1);
    DeliverFresh(c.orders[id], MakeFill(c.orders[id], id, rate, price, size, taker, c.tradeSeq + 1));
  }

  lemma {:induction false} EmitAllPosts(c: Core, m: Market, id: nat, rate: real, quotes: seq<Quote>)
    requires Orderly(c) && !c.fault && id < |c.orders| && id in c.acked && m.FeeOf(c.orders[id].token) == Some(rate)
    requires !EmitAll(c, m, id, quotes).fault
    ensures EmitAll(c, m, id, quotes).journal == c.journal + Postings(c.orders[id], id, rate, quotes, c.tradeSeq)
    decreases quotes
  {
    if quotes == [] {
      Regroup(c.journal, [], []);
    } else {
      var c1 := PostFirst(c, m, id, rate, quotes);
      EmitAllPosts(c1, m, id, rate, quotes[1..]);
      PostsOn(c, c1, EmitAll(c, m, id, quotes), id, rate, quotes);
    }
  }

  lemma PostsOn(c: Core, c1: Core, r: Core, id: nat, rate: real, quotes: seq<Quote>)
    requires quotes != [] && id < |c.orders| && id < |c1.orders| && c1.tradeSeq == c.tradeSeq + 1
    requires var o, p := c.orders[id], c1.orders[id];
             && p.slug == o.slug && p.token == o.token && p.side == o.side
             && c1.journal == c.journal + [PostingOf(o, id, TakerExec(o.side, rate, quotes[0]), c.tradeSeq + 1)]
             && r.journal == c1.journal + Postings(p, id, rate, quotes[1..], c1.tradeSeq)
    ensures r.journal == c.journal + Postings(c.orders[id], id, rate, quotes, c.tradeSeq)
  {
    SamePostings(c.orders[id], c1.orders[id], id, rate, quotes[1..], c1.tradeSeq);
    PostingsJoin(c.journal, c1.journal, r.journal, c.orders[id], id, rate, quotes, c.tradeSeq);
  }

  lemma PostingsJoin(j: seq<Posting>, j1: seq<Posting>, r: seq<Posting>, o: Order, id: nat, rate: real, quotes: seq<Quote>, n: nat)
    requires quotes != [] && j1 == j + [PostingOf(o, id, TakerExec(o.side, rate, quotes[0]), n + 1)]
    requires r == j1 + Postings(o, id, rate, quotes[1..], n + 1)
    ensures r == j + Postings(o, id, rate, quotes, n)
  {
  }

  lemma PostFirst(c: Core, m: Market, id: nat, rate: real, quotes: seq<Quote>) returns (c1: Core)
    requires Orderly(c) && !c.fault && id < |c.orders| && id in c.acked && m.FeeOf(c.orders[id].token) == Some(rate)
    requires quotes != [] && !EmitAll(c, m, id, quotes).fault
    ensures Orderly(c1) && !c1.fault && id < |c1.orders| && id in c1.acked && c1.tradeSeq == c.tradeSeq + 1
    ensures EmitAll(c, m, id, quotes) == EmitAll(c1, m, id, quotes[1..])
    ensures var o, p := c.orders[id], c1.orders[id];
            && p.slug == o.slug && p.token == o.token && p.side == o.side
            && c1.journal == c.journal + [PostingOf(o, id, TakerExec(o.side, rate, quotes[0]), c.tradeSeq + 1)]
  {
    var q := quotes[0];
    c1 := EmitFill(c, m, id, q.price, q.size, true);
    EmitMoves(c, m, id, q.price, q.size, true);
    EmitPosts(c, m, id, rate, q.price, q.size, true);
  }

  lemma {:induction false} SamePostings(o: Order, p: Order, id: nat, rate: real, quotes: seq<Quote>, n: nat)
    requires o.slug == p.slug && o.token == p.token && o.side == p.side
    ensures Postings(o, id, rate, quotes, n) == Postings(p, id, rate, quotes, n)
    decreases quotes
  {
    if quotes != [] { SamePostings(o, p, id, rate, quotes[1..], n + 1); }
  }

  /** What the exchange posts for a taker order: one posting a quote of its walk. */
  lemma TakerPosts(c: Core, m: Market, id: nat, b: Book, rate: real)
    requires Orderly(c) && !c.fault && id < |c.orders| && id in c.acked && m.FeeOf(c.orders[id].token) == Some(rate)
    requires !TakerFill(c, m, id, b).fault
    ensures TakerFill(c, m, id, b).journal
            == c.journal + Postings(c.orders[id], id, rate, TakerQuotes(c.orders[id], b).quotes, c.tradeSeq)
  {
    var quotes := TakerQuotes(c.orders[id], b).quotes;
    if quotes == [] {
      assert c.journal + [] == c.journal;
    } else {
      EmitAllPosts(c, m, id, rate, quotes);
    }
  }

  /** The journal once a print has met order id: one trade more at the order's own price, without a fee, of what the queue
      ahead leaves for it; or none. */
  function Printed(c: Core, id: nat, tp: Print): seq<Posting>
    requires id < |c.orders|
  {
    var o, rest := c.orders[id], FindRest(c.resting, id);
    if rest.Some? && Eligible(o, rest.value.activeFrom, tp) && LeftFor(rest.value, tp.size) > 0.0
    then c.journal + [PostingOf(o, id, Exec(o.price, LeftFor(rest.value, tp.size), 0.0, 0.0), c.tradeSeq + 1)]
    else c.journal
  }

  lemma TapePosts(c: Core, m: Market, id: nat, tp: Print, rate: real)
    requires Orderly(c) && !c.fault && id < |c.orders| && id in c.acked && m.FeeOf(c.orders[id].token) == Some(rate)
    requires tp.size >= 0.0 && !TapeOne(c, m, id, tp).fault
    ensures TapeOne(c, m, id, tp).journal == Printed(c, id, tp)
  {
    var rest := FindRest(c.resting, id);
    if rest.Some? {
      EligibleIs(c.orders[id], rest.value, tp);
      if Through(c.orders[id], rest.value, tp) && TapeFill(rest.value, tp.size) > 0.0 {
        PrintTaken(c, m, id, tp, rate, rest.value);
        assert TapeFill(rest.value, tp.size) == LeftFor(rest.value, tp.size);
      } else {
        assert TapeOne(c, m, id, tp).journal == c.journal;
      }
    }
  }

  lemma PrintTaken(c: Core, m: Market, id: nat, tp: Print, rate: real, r: Rest)
    requires Orderly(c) && !c.fault && id < |c.orders| && id in c.acked && m.FeeOf(c.orders[id].token) == Some(rate)
    requires FindRest(c.resting, id) == Some(r) && Through(c.orders[id], r, tp) && TapeFill(r, tp.size) > 0.0
    requires !TapeOne(c, m, id, tp).fault
    ensures var o := c.orders[id];
            TapeOne(c, m, id, tp).journal
            == c.journal + [PostingOf(o, id, MakerExec(o.price, TapeFill(r, tp.size)), c.tradeSeq + 1)]
  {
    FindRestId(c.resting, id);
    PutRestMoves(c, AfterTape(r, tp.size));
    PrintPosts(c, m, id, tp, rate, r, c.(resting := PutRest(c.resting, AfterTape(r, tp.size))));
  }

  lemma PrintPosts(c: Core, m: Market, id: nat, tp: Print, rate: real, r: Rest, c1: Core)
    requires id < |c.orders| && FindRest(c.resting, id) == Some(r) && Through(c.orders[id], r, tp) && TapeFill(r, tp.size) > 0.0
    requires c1 == c.(resting := PutRest(c.resting, AfterTape(r, tp.size))) && Orderly(c1) && !c1.fault
    requires id in c.acked && m.FeeOf(c.orders[id].token) == Some(rate) && !TapeOne(c, m, id, tp).fault
    ensures var o := c.orders[id];
            TapeOne(c, m, id, tp).journal
            == c.journal + [PostingOf(o, id, MakerExec(o.price, TapeFill(r, tp.size)), c.tradeSeq + 1)]
  {
    EmitPosts(c1, m, id, rate, c.orders[id].price, TapeFill(r, tp.size), false);
  }

  // ---- the accounts

  function Fees(rate: real, quotes: seq<Quote>): real {
    if quotes == [] then 0.0 else TakerFee(rate, quotes[0]) + Fees(rate, quotes[1..])
  }

  lemma {:induction false} NetCashConcat(j: seq<Posting>, k: seq<Posting>, slug: string)
    ensures NetCash(j + k, slug) == NetCash(j, slug) + NetCash(k, slug)
  {
    if k == [] {
      assert j + k == j;
    } else {
      assert (j + k)[..|j + k| - 1] == j + k[..|k| - 1];
      NetCashConcat(j, k[..|k| - 1], slug);
    }
  }

  lemma {:induction false} NetSharesConcat(j: seq<Posting>, k: seq<Posting>, slug: string, token: string)
    ensures NetShares(j + k, slug, token) == NetShares(j, slug, token) + NetShares(k, slug, token)
  {
    if k == [] {
      assert j + k == j;
    } else {
      assert (j + k)[..|j + k| - 1] == j + k[..|k| - 1];
      NetSharesConcat(j, k[..|k| - 1], slug, token);
    }
  }

  lemma OnePostingMoves(p: Posting, slug: string, token: string)
    ensures NetCash([p], slug) == if p.slug == slug then Payment(p.fill) else 0.0
    ensures NetShares([p], slug, token) == if p.slug == slug && p.fill.token == token then Shares(p.fill) else 0.0
  {
    assert [p][..0] == [];
  }

  /** The first quote's value v and fee, and what its posting moves. */
  lemma FirstCash(o: Order, id: nat, rate: real, quotes: seq<Quote>, n: nat, slug: string) returns (v: real, fee: real)
    requires quotes != []
    ensures Value(quotes) == v + Value(quotes[1..]) && Fees(rate, quotes) == fee + Fees(rate, quotes[1..])
    ensures NetCash([PostingOf(o, id, TakerExec(o.side, rate, quotes[0]), n + 1)], slug)
            == if slug != o.slug then 0.0 else if o.side == Buy then -v else v - fee
  {
    v, fee := Product(quotes[0].price, quotes[0].size), TakerFee(rate, quotes[0]);
    OnePostingMoves(PostingOf(o, id, TakerExec(o.side, rate, quotes[0]), n + 1), slug, o.token);
  }

  /** A buyer pays the value of its quotes; a seller gets it, less the fees. No other session's cash moves. */
  lemma {:induction false} CashMoves(o: Order, id: nat, rate: real, quotes: seq<Quote>, n: nat, slug: string)
    ensures NetCash(Postings(o, id, rate, quotes, n), slug)
            == if slug != o.slug then 0.0 else if o.side == Buy then -Value(quotes) else Value(quotes) - Fees(rate, quotes)
    decreases |quotes|
  {
    if quotes != [] {
      var v, fee := FirstCash(o, id, rate, quotes, n, slug);
      CashMoves(o, id, rate, quotes[1..], n + 1, slug);
      NetCashConcat([PostingOf(o, id, TakerExec(o.side, rate, quotes[0]), n + 1)], Postings(o, id, rate, quotes[1..], n + 1), slug);
    }
  }

  /** A buyer gets the size of its quotes less the fees; a seller gives it. No other balance moves. */
  lemma {:induction false} SharesMove(o: Order, id: nat, rate: real, quotes: seq<Quote>, n: nat, slug: string, token: string)
    ensures NetShares(Postings(o, id, rate, quotes, n), slug, token)
            == if slug != o.slug || token != o.token then 0.0
               else if o.side == Buy then TotalSize(quotes) - Fees(rate, quotes) else -TotalSize(quotes)
    decreases |quotes|
  {
    if quotes != [] {
      var p := PostingOf(o, id, TakerExec(o.side, rate, quotes[0]), n + 1);
      SharesMove(o, id, rate, quotes[1..], n + 1, slug, token);
      OnePostingMoves(p, slug, token);
      NetSharesConcat([p], Postings(o, id, rate, quotes[1..], n + 1), slug, token);
    }
  }

  /** What a taker order moves in the accounts. */
  lemma TakerMoves(c: Core, m: Market, id: nat, b: Book, rate: real, slug: string, token: string)
    requires Orderly(c) && !c.fault && id < |c.orders| && id in c.acked && m.FeeOf(c.orders[id].token) == Some(rate)
    requires !TakerFill(c, m, id, b).fault
    ensures var o, quotes, r := c.orders[id], TakerQuotes(c.orders[id], b).quotes, TakerFill(c, m, id, b);
            && NetCash(r.journal, slug) == NetCash(c.journal, slug)
                 + (if slug != o.slug then 0.0 else if o.side == Buy then -Value(quotes) else Value(quotes) - Fees(rate, quotes))
            && NetShares(r.journal, slug, token) == NetShares(c.journal, slug, token)
                 + (if slug != o.slug || token != o.token then 0.0
                    else if o.side == Buy then TotalSize(quotes) - Fees(rate, quotes) else -TotalSize(quotes))
  {
    var o, quotes := c.orders[id], TakerQuotes(c.orders[id], b).quotes;
    TakerPosts(c, m, id, b, rate);
    CashMoves(o, id, rate, quotes, c.tradeSeq, slug);
    SharesMove(o, id, rate, quotes, c.tradeSeq, slug, token);
    NetCashConcat(c.journal, Postings(o, id, rate, quotes, c.tradeSeq), slug);
    NetSharesConcat(c.journal, Postings(o, id, rate, quotes, c.tradeSeq), slug, token);
  }

  /** The levels a taker order walks. */
  function LevelsFor(o: Order, b: Book): Levels {
    TopLevels(Opposite(o.side), b.Of(Opposite(o.side)), 64)
  }

  /** What a taker order costs in the accounts is the value of its walk, so no other way of taking the same total from
      the levels within its limit would have cost less, or for a seller brought more. */
  lemma TakerPaysLeast(c: Core, m: Market, id: nat, b: Book, rate: real, a: Allocation)
    requires Orderly(c) && !c.fault && id < |c.orders| && id in c.acked && m.FeeOf(c.orders[id].token) == Some(rate)
    requires !TakerFill(c, m, id, b).fault && c.orders[id].size >= 0.0
    requires var o := c.orders[id];
             Feasible(o.side, o.price, LevelsFor(o, b), a) && Allocated(a) == TotalSize(TakerQuotes(o, b).quotes)
    ensures var o, quotes := c.orders[id], TakerQuotes(c.orders[id], b).quotes;
            var paid := NetCash(c.journal, o.slug) - NetCash(TakerFill(c, m, id, b).journal, o.slug);
            && paid == (if o.side == Buy then Value(quotes) else Fees(rate, quotes) - Value(quotes))
            && (if o.side == Buy then paid else paid - Fees(rate, quotes)) <= Cost(o.side, LevelsFor(o, b), a)
  {
    var o := c.orders[id];
    var quotes, levels := TakerQuotes(o, b).quotes, LevelsFor(o, b);
    TakerMoves(c, m, id, b, rate, o.slug, o.token);
    TopLevelsRank(Opposite(o.side), b.Of(Opposite(o.side)), 64);
    if quotes == [] {
      NothingCosts(o.side, o.price, levels, a);
    } else {
      GreedyOptimal(o.side, o.price, levels, o.size, a);
    }
  }

  /** Nothing taken, nothing paid. */
  lemma {:induction false} NothingCosts(side: Side, limit: real, levels: Levels, a: Allocation)
    requires Feasible(side, limit, levels, a) && Allocated(a) == 0.0
    ensures Cost(side, levels, a) == 0.0
    decreases |a|
  {
    if a != [] {
      AllocatedNonNegative(a[1..]);
      NothingCosts(side, limit, levels[1..], a[1..]);
    }
  }
}
