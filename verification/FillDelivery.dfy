/** Fill events may be repeated and may arrive in any order: what an order, and accounting, make of them. */
module FillDelivery {
  import opened Grid
  import opened Orders

  datatype Measure = Shares | FeeInShares | FeeInUsdc

  function Amount(f: Fill, m: Measure): real {
    match m
    case Shares => f.size
    case FeeInShares => f.feeShares
    case FeeInUsdc => f.feeUsdc
  }

  ghost function Pick(fs: set<Fill>): Fill
    requires fs != {}
  {
    var f :| f in fs; f
  }

  /** The total of a measure over a set of fills. */
  ghost function Total(fs: set<Fill>, m: Measure): real {
    if fs == {} then 0.0 else Amount(Pick(fs), m) + Total(fs - {Pick(fs)}, m)
  }

  lemma TotalSplit(fs: set<Fill>, f: Fill, m: Measure)
    requires f in fs
    ensures Total(fs, m) == Amount(f, m) + Total(fs - {f}, m)
  {
    var g := Pick(fs);
    if g != f {
      TotalSplit(fs - {g}, f, m);
      TotalSplit(fs - {f}, g, m);
      assert fs - {g} - {f} == fs - {f} - {g};
    }
  }

  lemma TotalGrows(fs: set<Fill>, f: Fill, m: Measure)
    requires f !in fs
    ensures Total(fs + {f}, m) == Total(fs, m) + Amount(f, m)
  {
    TotalSplit(fs + {f}, f, m);
    assert fs + {f} - {f} == fs;
  }

  lemma {:induction false} TotalMonotone(fs: set<Fill>, gs: set<Fill>)
    requires fs <= gs
    requires forall f <- gs :: f.size >= 0.0
    ensures Total(fs, Shares) <= Total(gs, Shares)
    decreases gs
  {
    if g :| g in gs && g !in fs {
      TotalSplit(gs, g, Shares);
      TotalMonotone(fs, gs - {g});
    } else {
      assert forall g <- gs :: g in fs;
      assert fs == gs;
    }
  }

  function Distinct(fs: seq<Fill>): set<Fill> {
    set f <- fs
  }

  /** The order after a sequence of fill events, each handled on its own. */
  function DeliverAll(o: Order, fs: seq<Fill>): Order {
    if fs == [] then o else Deliver(DeliverAll(o, fs[..|fs| - 1]), fs[|fs| - 1]).order
  }

  predicate RaisesAt(o: Order, fs: seq<Fill>, k: nat)
    requires k < |fs|
  {
    Deliver(DeliverAll(o, fs[..k]), fs[k]).raised
  }

  /** Some event of the sequence raises IllegalTransition, so accounting is not told about it. */
  ghost predicate Raises(o: Order, fs: seq<Fill>) {
    exists k: nat :: k < |fs| && RaisesAt(o, fs, k)
  }

  /** Identified, non-negative and consistent: one trade id stands for one fill. */
  ghost predicate Consistent(fs: set<Fill>) {
    && (forall f <- fs :: f.tradeId != Unidentified && f.size >= 0.0)
    && (forall f <- fs, g <- fs :: f.tradeId == g.tradeId ==> f == g)
  }

  /** States from which fills move an order on. */
  predicate Filling(o: Order) {
    o.state in {Sent, Acked, Partial}
  }

  /** The trades that the order has not seen before. */
  function Unseen(o: Order, fs: set<Fill>): set<Fill> {
    set f <- fs | f.tradeId !in o.seen
  }

  predicate Complete(o: Order, filled: real) {
    filled >= o.size - SIZE_TOL
  }

  function StateAfter(o: Order, fs: set<Fill>, filled: real): OrderState {
    if !Filling(o) || fs == {} then o.state else if Complete(o, filled) then Filled else Partial
  }

  function Ids(fs: set<Fill>): set<TradeId> {
    set f <- fs :: f.tradeId
  }

  /** r is o after the unseen trades fs: each counted once, the size capped. */
  ghost predicate Summarises(o: Order, r: Order, fs: set<Fill>) {
    && r.filled == Min(o.filled + Total(fs, Shares), o.size)
    && r.feeShares == o.feeShares + Total(fs, FeeInShares)
    && r.feeUsdc == o.feeUsdc + Total(fs, FeeInUsdc)
    && r.seen == o.seen + Ids(fs)
    && r.state == StateAfter(o, fs, r.filled)
    && r.size == o.size
  }

  /** Whether one more unseen trade raises, after the unseen trades fs. */
  ghost predicate Surplus(o: Order, fs: set<Fill>, f: Fill) {
    if o.state == Canceled then false
    else if Filling(o) then fs != {} && Complete(o, o.filled + Total(fs, Shares))
    else Complete(o, o.filled + Total(fs, Shares) + f.size)
  }

  lemma NewId(fs: set<Fill>, f: Fill)
    requires Consistent(fs + {f})
    ensures f in fs <==> f.tradeId in Ids(fs)
    ensures Ids(fs + {f}) == Ids(fs) + {f.tradeId}
  {
    if f.tradeId in Ids(fs) {
      var g :| g in fs && g.tradeId == f.tradeId;
      assert g in fs + {f} && f in fs + {f};
    }
  }

  lemma TotalNonNegative(fs: set<Fill>)
    requires forall f <- fs :: f.size >= 0.0
    ensures Total(fs, Shares) >= 0.0
  {
    TotalMonotone({}, fs);
  }

  lemma UnseenStep(o: Order, fs: set<Fill>, f: Fill)
    requires Consistent(fs + {f})
    ensures Unseen(o, fs + {f}) == if f.tradeId in o.seen then Unseen(o, fs) else Unseen(o, fs) + {f}
    ensures f.tradeId in o.seen + Ids(Unseen(o, fs)) <==> f.tradeId in o.seen || f in fs
  {
    var us := Unseen(o, fs);
    assert us + {f} <= fs + {f};
    NewId(us, f);
  }

  /** One more unseen trade, in terms of how much the unseen trades so far add up to. */
  lemma OneMore(o: Order, r: Order, f: Fill, total: real, some: bool)
    requires o.filled <= o.size && total >= 0.0 && f.size >= 0.0 && (!some ==> total == 0.0)
    requires r.size == o.size && r.filled == Min(o.filled + total, o.size)
    requires r.state == if !Filling(o) || !some then o.state else if Complete(o, r.filled) then Filled else Partial
    requires f.tradeId !in r.seen && f.tradeId != Unidentified
    ensures var d := Deliver(r, f);
            && d.order.filled == Min(o.filled + (total + f.size), o.size)
            && d.order.state == (if !Filling(o) then o.state else if Complete(o, d.order.filled) then Filled else Partial)
            && (d.raised <==> if o.state == Canceled then false
                              else if Filling(o) then some && Complete(o, o.filled + total)
                              else Complete(o, o.filled + total + f.size))
            && (d.applied <==> !d.raised)
            && d.order.feeShares == r.feeShares + f.feeShares && d.order.feeUsdc == r.feeUsdc + f.feeUsdc
            && d.order.seen == r.seen + {f.tradeId} && d.order.size == r.size
  {
  }

  lemma SummaryStep(o: Order, r: Order, fs: set<Fill>, f: Fill)
    requires o.filled <= o.size && Consistent(fs + {f}) && Summarises(o, r, fs) && f.tradeId !in r.seen
    ensures Summarises(o, Deliver(r, f).order, fs + {f})
    ensures Deliver(r, f).raised <==> Surplus(o, fs, f)
    ensures Deliver(r, f).applied <==> !Deliver(r, f).raised
  {
    assert f in fs + {f};
    NotYet(o, r, fs, f);
    OneMore(o, r, f, Total(fs, Shares), fs != {});
    TotalsGrow(fs, f);
  }

  lemma NotYet(o: Order, r: Order, fs: set<Fill>, f: Fill)
    requires Consistent(fs + {f}) && Summarises(o, r, fs) && f.tradeId !in r.seen
    ensures f !in fs && Ids(fs + {f}) == Ids(fs) + {f.tradeId} && Total(fs, Shares) >= 0.0
  {
    NewId(fs, f);
    assert forall g <- fs :: g in fs + {f};
    TotalNonNegative(fs);
  }

  lemma TotalsGrow(fs: set<Fill>, f: Fill)
    requires f !in fs
    ensures forall m :: Total(fs + {f}, m) == Total(fs, m) + Amount(f, m)
  {
    forall m ensures Total(fs + {f}, m) == Total(fs, m) + Amount(f, m) { TotalGrows(fs, f, m); }
  }

  /** Totals count each trade once; the state is a function of the set of trades delivered. */
  lemma {:induction false} DeliveredTotals(o: Order, fs: seq<Fill>)
    requires o.filled <= o.size && Consistent(Distinct(fs))
    ensures Summarises(o, DeliverAll(o, fs), Unseen(o, Distinct(fs)))
  {
    if fs == [] {
      assert Unseen(o, Distinct(fs)) == {} && Ids({}) == {};
    } else {
      var init, f := fs[..|fs| - 1], fs[|fs| - 1];
      assert Distinct(fs) == Distinct(init) + {f} by { assert fs == init + [f]; }
      DeliveredTotals(o, init);
      UnseenStep(o, Distinct(init), f);
      if f.tradeId in o.seen || f in Distinct(init) {
        assert f in Distinct(init) ==> Distinct(fs) == Distinct(init);
      } else {
        assert Unseen(o, Distinct(init)) + {f} <= Distinct(fs);
        SummaryStep(o, DeliverAll(o, init), Unseen(o, Distinct(init)), f);
      }
    }
  }

  /** Permuting or duplicating the events changes nothing about the order. */
  lemma DeliveryOrderIrrelevant(o: Order, fs: seq<Fill>, gs: seq<Fill>)
    requires o.filled <= o.size && Consistent(Distinct(fs)) && Distinct(fs) == Distinct(gs)
    ensures DeliverAll(o, fs) == DeliverAll(o, gs)
  {
    DeliveredTotals(o, fs);
    DeliveredTotals(o, gs);
    DeliverAllFrame(o, fs);
    DeliverAllFrame(o, gs);
  }

  lemma {:induction false} DeliverAllFrame(o: Order, fs: seq<Fill>)
    ensures var r := DeliverAll(o, fs);
            r == o.(state := r.state, filled := r.filled, feeShares := r.feeShares, feeUsdc := r.feeUsdc, seen := r.seen)
  {
    if fs != [] {
      DeliverAllFrame(o, fs[..|fs| - 1]);
    }
  }

  /** No fill event moves an order out of a terminal state. */
  lemma {:induction false} TerminalAbsorbing(o: Order, fs: seq<Fill>)
    requires o.Terminal()
    ensures DeliverAll(o, fs).state == o.state
  {
    if fs != [] {
      TerminalAbsorbing(o, fs[..|fs| - 1]);
    }
  }

  /** Enumerates a finite set of fills, one event each. */
  lemma {:induction false} Enumerate(fs: set<Fill>) returns (s: seq<Fill>)
    ensures Distinct(s) == fs
  {
    if fs == {} {
      s := [];
    } else {
      var f := Pick(fs);
      var t := Enumerate(fs - {f});
      s := t + [f];
      assert Distinct(s) == Distinct(t) + {f};
    }
  }

  // ---- what accounting hears

  /** The trades that accounting was told about. */
  function Told(o: Order, fs: seq<Fill>): set<Fill> {
    if fs == [] then {}
    else
      var init, f := fs[..|fs| - 1], fs[|fs| - 1];
      Told(o, init) + if Deliver(DeliverAll(o, init), f).applied then {f} else {}
  }

  lemma {:induction false} ToldMembers(o: Order, fs: seq<Fill>)
    ensures Told(o, fs) <= Distinct(fs)
  {
    if fs != [] {
      ToldMembers(o, fs[..|fs| - 1]);
      assert fs == fs[..|fs| - 1] + [fs[|fs| - 1]];
    }
  }

  /** The next event of the sequence concerns a trade met for the first time. */
  predicate FirstTime(o: Order, fs: seq<Fill>, k: nat)
    requires k < |fs|
  {
    fs[k].tradeId !in o.seen && fs[k] !in fs[..k]
  }

  lemma EventMeans(o: Order, fs: seq<Fill>, k: nat)
    requires o.filled <= o.size && Consistent(Distinct(fs)) && k < |fs|
    ensures var d, before := Deliver(DeliverAll(o, fs[..k]), fs[k]), Unseen(o, Distinct(fs[..k]));
            && (d.raised <==> FirstTime(o, fs, k) && Surplus(o, before, fs[k]))
            && (d.applied <==> FirstTime(o, fs, k) && !d.raised)
  {
    var before, f := Distinct(fs[..k]), fs[k];
    assert before + {f} <= Distinct(fs);
    DeliveredTotals(o, fs[..k]);
    UnseenStep(o, before, f);
    if FirstTime(o, fs, k) {
      assert Unseen(o, before) + {f} <= Distinct(fs);
      SummaryStep(o, DeliverAll(o, fs[..k]), Unseen(o, before), f);
    }
  }

  /** Accounting hears of every trade the order had not seen, once, exactly when no event raises. */
  lemma {:induction false} ToldUnlessRaised(o: Order, fs: seq<Fill>)
    requires o.filled <= o.size && Consistent(Distinct(fs))
    ensures Told(o, fs) == Unseen(o, Distinct(fs)) <==> !Raises(o, fs)
  {
    if fs != [] {
      var n := |fs| - 1;
      var init, f := fs[..n], fs[n];
      assert Distinct(fs) == Distinct(init) + {f} by { assert fs == init + [f]; }
      ToldUnlessRaised(o, init);
      EventMeans(o, fs, n);
      RaisesStep(o, fs);
      ToldStep(o, fs);
    }
  }

  /** An unraised first event is told, every other one changes neither side. */
  lemma ToldStep(o: Order, fs: seq<Fill>)
    requires fs != [] && o.filled <= o.size && Consistent(Distinct(fs))
    ensures var n := |fs| - 1;
            Told(o, fs) == Unseen(o, Distinct(fs)) <==> Told(o, fs[..n]) == Unseen(o, Distinct(fs[..n])) && !RaisesAt(o, fs, n)
  {
    var n := |fs| - 1;
    var init, f := fs[..n], fs[n];
    assert Distinct(fs) == Distinct(init) + {f} by { assert fs == init + [f]; }
    ToldMembers(o, init);
    EventMeans(o, fs, n);
    UnseenStep(o, Distinct(init), f);
    if FirstTime(o, fs, n) {
      OneMoreTold(Told(o, init), Unseen(o, Distinct(init)), f);
    } else {
      assert f in Distinct(init) ==> Distinct(fs) == Distinct(init);
    }
  }

  lemma OneMoreTold(told: set<Fill>, us: set<Fill>, f: Fill)
    requires f !in told && f !in us
    ensures told + {f} == us + {f} <==> told == us
    ensures told != us + {f}
  {
    if told + {f} == us + {f} { assert told == told + {f} - {f} && us == us + {f} - {f}; }
    assert f in us + {f};
  }

  lemma RaisesStep(o: Order, fs: seq<Fill>)
    requires fs != []
    ensures var n := |fs| - 1; Raises(o, fs) <==> Raises(o, fs[..n]) || RaisesAt(o, fs, n)
  {
    var n := |fs| - 1;
    if Raises(o, fs) && !RaisesAt(o, fs, n) {
      var k: nat :| k < |fs| && RaisesAt(o, fs, k);
      assert fs[..n][..k] == fs[..k];
      assert RaisesAt(o, fs[..n], k);
    }
    if Raises(o, fs[..n]) {
      var k: nat :| k < n && RaisesAt(o, fs[..n], k);
      assert fs[..n][..k] == fs[..k];
      assert RaisesAt(o, fs, k);
    }
    if RaisesAt(o, fs, n) { assert n < |fs| && RaisesAt(o, fs, n); }
  }

  /** No trade of a set is left over once the others have completed the order: for an order already canceled, never;
      for one in the course of being filled, if the others complete it; for any other, if all together do. */
  ghost predicate NoneLeftOver(o: Order, fs: set<Fill>) {
    if o.state == Canceled then true
    else if Filling(o) then forall f <- fs :: fs == {f} || !Complete(o, o.filled + Total(fs - {f}, Shares))
    else fs == {} || !Complete(o, o.filled + Total(fs, Shares))
  }

  /** A trade that is left over raises when it comes last. */
  lemma LastRaises(o: Order, fs: set<Fill>, f: Fill) returns (s: seq<Fill>)
    requires o.filled <= o.size && Consistent(fs) && f in fs && f.tradeId !in o.seen
    requires Surplus(o, Unseen(o, fs) - {f}, f)
    ensures Distinct(s) == fs && Raises(o, s)
  {
    var t := Enumerate(fs - {f});
    s := t + [f];
    assert Distinct(s) == Distinct(t) + {f} == fs;
    assert s[..|t|] == t && s[|t|] == f;
    assert Unseen(o, fs - {f}) == Unseen(o, fs) - {f};
    EventMeans(o, s, |t|);
    assert RaisesAt(o, s, |t|);
  }

  lemma OthersLeft(fs: set<Fill>, f: Fill)
    requires f in fs && fs != {f}
    ensures fs - {f} != {}
  {
    var g :| g in fs && g != f;
    assert g in fs - {f};
  }

  lemma LeftOverRaises(o: Order, fs: set<Fill>) returns (s: seq<Fill>)
    requires o.filled <= o.size && Consistent(fs) && !NoneLeftOver(o, Unseen(o, fs))
    ensures Distinct(s) == fs && Raises(o, s)
  {
    var f := SurplusTrade(o, Unseen(o, fs));
    s := LastRaises(o, fs, f);
  }

  lemma SurplusTrade(o: Order, us: set<Fill>) returns (f: Fill)
    requires !NoneLeftOver(o, us)
    ensures f in us && Surplus(o, us - {f}, f)
  {
    if Filling(o) {
      f :| f in us && us != {f} && Complete(o, o.filled + Total(us - {f}, Shares));
      OthersLeft(us, f);
    } else {
      f :| f in us;
      TotalSplit(us, f, Shares);
    }
  }

  lemma NoLeftOverNoRaise(o: Order, fs: set<Fill>, s: seq<Fill>, k: nat)
    requires o.filled <= o.size && Consistent(fs) && NoneLeftOver(o, Unseen(o, fs)) && Distinct(s) == fs && k < |s|
    ensures !RaisesAt(o, s, k)
  {
    var us, before := Unseen(o, fs), Unseen(o, Distinct(s[..k]));
    EventMeans(o, s, k);
    if FirstTime(o, s, k) {
      var f := s[k];
      assert before <= us - {f} && f in us;
      TotalMonotone(before, us - {f});
      TotalSplit(us, f, Shares);
      if before != {} { assert us != {f}; }
    }
  }

  /** Accounting is told about every distinct trade whatever the delivery order, exactly when no trade is left over
      once the others have completed the order. */
  lemma EveryOrderReachesAccounting(o: Order, fs: set<Fill>)
    requires o.filled <= o.size && Consistent(fs)
    ensures (forall s :: Distinct(s) == fs ==> Told(o, s) == Unseen(o, fs)) <==> NoneLeftOver(o, Unseen(o, fs))
  {
    if NoneLeftOver(o, Unseen(o, fs)) {
      forall s | Distinct(s) == fs ensures Told(o, s) == Unseen(o, fs) {
        forall k: nat | k < |s| ensures !RaisesAt(o, s, k) { NoLeftOverNoRaise(o, fs, s, k); }
        ToldUnlessRaised(o, s);
      }
    } else {
      var s := LeftOverRaises(o, fs);
      ToldUnlessRaised(o, s);
      assert Distinct(s) == fs;
    }
  }

  /** In particular, every late fill of an order already canceled reaches accounting, whatever its size. */
  lemma LateFillsReachAccounting(o: Order, s: seq<Fill>)
    requires o.state == Canceled && o.filled <= o.size && Consistent(Distinct(s))
    ensures Told(o, s) == Unseen(o, Distinct(s)) && DeliverAll(o, s).state == Canceled
  {
    EveryOrderReachesAccounting(o, Distinct(s));
    TerminalAbsorbing(o, s);
  }
}
