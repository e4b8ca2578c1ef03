/** The maker queue loop refines a closed form: last in queue behind the size visible when the order joined. */
module MakerQueue {
  import opened Grid
  import opened Orders
  import opened Books
  import opened Exchange
  import opened OneOrder
  import opened Executions
  import opened Projection
  import opened NonInterference
  import opened CoreBounds
  import opened Risk
  import opened Trading
  import opened TradingInvariant
  import opened TradingOrders

  /** What the tape must trade through the price before the order gets anything. */
  function QueueAtJoin(r: Rest): real {
    Max(r.queueAhead, 0.0)
  }

  function QueueFill(size: real, queue: real, volume: real): real {
    Min(size, Max(0.0, volume - queue))
  }

  /** The order rested as r and volume has traded through since. */
  ghost predicate Queued(l: Life, r: Rest, volume: real) {
    && l.places == [] && l.cancels == []
    && l.order.filled == QueueFill(l.order.size, QueueAtJoin(r), volume)
    && (if l.rest.Some? then
          && l.order.filled < l.order.size && l.rest.value.activeFrom == r.activeFrom
          && Max(l.rest.value.queueAhead, 0.0) == Max(QueueAtJoin(r) - volume, 0.0)
        else
          l.order.filled == l.order.size)
  }

  function Contribution(o: Order, r: Rest, tp: Print): real {
    if Eligible(o, r.activeFrom, tp) then tp.size else 0.0
  }

  /** What one print does to a resting order it trades through. */
  lemma TapeEffect(l: Life, fee: Option<real>, tp: Print)
    requires Coupled(l) && FeeKnown(fee) && OnLot(tp.size) && l.rest.Some? && Through(l.order, l.rest.value, tp)
    ensures var t, x := Tape(l, fee, tp), l.rest.value;
            && t.order.filled == l.order.filled + Max(TapeFill(x, tp.size), 0.0)
            && t.order.size == l.order.size && t.places == l.places && t.cancels == l.cancels
            && (t.rest == if t.order.filled == t.order.size then None else Some(AfterTape(x, tp.size)))
  {
    var x := l.rest.value;
    var fill := TapeFill(x, tp.size);
    if fill > 0.0 {
      TapeFits(l, tp.size);
      EmitSound(l.(rest := Some(AfterTape(x, tp.size))), fee, l.order.price, fill, false);
      MultipleDifference(x.remaining, fill, LOT) by { MultipleDifference(l.order.size, l.order.filled, LOT); }
      if x.remaining - fill > 0.0 { LotGap(x.remaining - fill); }
    }
  }

  lemma TapeQueued(l: Life, fee: Option<real>, tp: Print, r: Rest, volume: real)
    requires Coupled(l) && FeeKnown(fee) && OnLot(tp.size) && tp.size >= 0.0 && volume >= 0.0
    requires Queued(l, r, volume)
    ensures Queued(Tape(l, fee, tp), r, volume + Contribution(l.order, r, tp))
  {
    if l.rest.Some? {
      EligibleIs(l.order, l.rest.value, tp);
      if Through(l.order, l.rest.value, tp) { TapeEffect(l, fee, tp); }
    }
  }

  /** The step is not a cancel of order i, and a print of it is not negative. */
  ghost predicate Undisturbed(s: System, step: Step, i: nat)
    requires i < |s.core.orders|
  {
    match step
    case AskCancelOrder(id, _) => id != i
    case CancelSession(slug, _, _) => slug != s.core.orders[i].slug
    case Tick(tape) => tape.size >= 0.0
    case _ => true
  }

  /** The size a step trades through the order's price, if its token is tracked. */
  function StepVolume(s: System, step: Step, o: Order, r: Rest): real {
    if step.Tick? && step.tape.token in s.market.books then Contribution(o, r, step.tape) else 0.0
  }

  /** process_due has nothing to do for the order, even where it raises. */
  lemma QueuedElapse(l: Life, book: Option<Book>, fee: Option<real>, now: int, r: Rest, volume: real, k: nat)
    requires Coupled(l) && Usable(book, fee) && Queued(l, r, volume)
    ensures ElapseUpTo(l, book, fee, now, k) == l
  {
    PlacesDueCoupled(l, book, fee, now);
    assert TimesBy(l.cancels, now) == [] && TimesAfter(l.cancels, now) == [];
    assert l.(cancels := []) == l && DropAll(l, []) == l;
  }

  /** What a step leaves of the order's contract and of its acknowledgement. */
  predicate Stays(l: Life, r: Life) {
    SameContract(l.order, r.order) && l.acked && r.acked
  }

  lemma QueuedStep(cfg: Config, s: System, step: Step, i: nat, k: nat, r: Rest, volume: real, more: real)
    requires Inv(cfg, s) && Lawful(s, step) && i < |s.core.orders| && Undisturbed(s, step, i)
    requires Queued(LifeOf(s.core, i), r, volume) && volume >= 0.0 && i in s.core.acked
    requires more == volume + StepVolume(s, step, s.core.orders[i], r)
    ensures Queued(LifeCut(s, step, i, k), r, more) && Stays(LifeOf(s.core, i), LifeCut(s, step, i, k))
  {
    var l := LifeOf(s.core, i);
    assert Coupled(l);
    MarketFor(cfg, s, i);
    if step.ElapseTo? {
      QueuedElapse(l, BookFor(s.core, s.market, i), FeeFor(s.core, s.market, i), step.now, r, volume, k);
    } else if step.Tick? {
      QueuedTick(s, step.tape, i, r, volume, more);
    } else {
      QueuedRequest(s, step, i, r, volume);
    }
  }

  lemma QueuedTick(s: System, tp: Print, i: nat, r: Rest, volume: real, more: real)
    requires i < |s.core.orders| && i in s.core.acked && Coupled(LifeOf(s.core, i)) && Queued(LifeOf(s.core, i), r, volume)
    requires OnLot(tp.size) && tp.size >= 0.0 && volume >= 0.0
    requires s.core.orders[i].token in s.market.books ==> FeeKnown(FeeFor(s.core, s.market, i))
    requires more == volume + StepVolume(s, Tick(tp), s.core.orders[i], r)
    ensures Queued(LifeStep(s, Tick(tp), i).(raised := false), r, more)
    ensures Stays(LifeOf(s.core, i), LifeStep(s, Tick(tp), i).(raised := false))
  {
    if tp.token in s.market.books {
      QueuedPrint(LifeOf(s.core, i), s.core.orders[i], FeeFor(s.core, s.market, i), tp, r, volume, more);
      TapeContract(LifeOf(s.core, i), FeeFor(s.core, s.market, i), tp);
    }
  }

  lemma QueuedRequest(s: System, step: Step, i: nat, r: Rest, volume: real)
    requires i < |s.core.orders| && Coupled(LifeOf(s.core, i)) && Undisturbed(s, step, i) && !step.ElapseTo? && !step.Tick?
    requires Queued(LifeOf(s.core, i), r, volume) && i in s.core.acked
    ensures Queued(LifeStep(s, step, i).(raised := false), r, volume)
    ensures Stays(LifeOf(s.core, i), LifeStep(s, step, i).(raised := false))
  {
    if step.SubmitOrder? && step.id == i { SendCoupled(LifeOf(s.core, i), step.due); }
  }

  lemma QueuedPrint(l: Life, o: Order, fee: Option<real>, tp: Print, r: Rest, volume: real, more: real)
    requires Coupled(l) && l.order == o.(seen := {}) && OnLot(tp.size) && tp.size >= 0.0 && volume >= 0.0
    requires o.token == tp.token ==> FeeKnown(fee)
    requires Queued(l, r, volume) && more == volume + Contribution(o, r, tp)
    ensures Queued(Tape(l, fee, tp), r, more)
  {
    assert Eligible(l.order, r.activeFrom, tp) == Eligible(o, r.activeFrom, tp);
    if tp.token == o.token { TapeQueued(l, fee, tp, r, volume); } else { TapeContract(l, fee, tp); }
  }

  /** The volume a whole run trades through the order's price. */
  ghost function RunVolume(cfg: Config, s: System, steps: seq<Step>, o: Order, r: Rest): real
    decreases steps
  {
    if steps == [] then 0.0
    else StepVolume(s, steps[0], o, r) + RunVolume(cfg, Next(cfg, s, steps[0]), steps[1..], o, r)
  }

  lemma SameThrough(o: Order, p: Order, s: System, step: Step, r: Rest)
    requires SameContract(o, p)
    ensures StepVolume(s, step, o, r) == StepVolume(s, step, p, r)
  {
  }

  lemma {:induction false} SameRunVolume(cfg: Config, s: System, steps: seq<Step>, o: Order, p: Order, r: Rest)
    requires SameContract(o, p)
    ensures RunVolume(cfg, s, steps, o, r) == RunVolume(cfg, s, steps, p, r)
    decreases steps
  {
    if steps != [] {
      SameThrough(o, p, s, steps[0], r);
      SameRunVolume(cfg, Next(cfg, s, steps[0]), steps[1..], o, p, r);
    }
  }

  lemma QueuedNext(cfg: Config, s: System, step: Step, i: nat, r: Rest, volume: real, more: real)
    requires Inv(cfg, s) && Lawful(s, step) && cfg.maxStakePerWindow >= 0.0
    requires i < |s.core.orders| && i in s.core.acked && Undisturbed(s, step, i)
    requires Queued(LifeOf(s.core, i), r, volume) && volume >= 0.0
    requires more == volume + StepVolume(s, step, s.core.orders[i], r)
    ensures var n := Next(cfg, s, step);
            && i < |n.core.orders| && i in n.core.acked && SameContract(s.core.orders[i], n.core.orders[i])
            && Queued(LifeOf(n.core, i), r, more)
  {
    var n := Next(cfg, s, step);
    var k := StepCut(cfg, s, step, i);
    QueuedStep(cfg, s, step, i, k, r, volume, more);
    assert LifeOf(n.core, i).order == n.core.orders[i].(seen := {});
  }

  lemma VolumeStep(cfg: Config, s: System, steps: seq<Step>, o: Order, p: Order, r: Rest, volume: real)
    requires steps != [] && SameContract(o, p)
    ensures volume + StepVolume(s, steps[0], o, r) + RunVolume(cfg, Next(cfg, s, steps[0]), steps[1..], p, r)
            == volume + RunVolume(cfg, s, steps, o, r)
  {
    SameRunVolume(cfg, Next(cfg, s, steps[0]), steps[1..], p, o, r);
  }

  /** A lawful run without a cancel of order i. */
  ghost predicate QuietRun(cfg: Config, s: System, steps: seq<Step>, i: nat)
    decreases steps
  {
    steps != [] ==>
      && Lawful(s, steps[0]) && i < |s.core.orders| && Undisturbed(s, steps[0], i)
      && QuietRun(cfg, Next(cfg, s, steps[0]), steps[1..], i)
  }

  /** What the rest of a run starts from. */
  ghost predicate QueueGoesOn(cfg: Config, s: System, steps: seq<Step>, i: nat, r: Rest, volume: real, total: real) {
    && Inv(cfg, Resumed(s)) && i < |s.core.orders| && i in s.core.acked && QuietRun(cfg, s, steps, i)
    && Queued(LifeOf(s.core, i), r, volume) && volume >= 0.0
    && total == volume + RunVolume(cfg, s, steps, s.core.orders[i], r)
  }

  lemma QueuedOn(cfg: Config, s: System, step: Step, i: nat, r: Rest, volume: real, more: real)
    requires Inv(cfg, Resumed(s)) && Lawful(s, step) && cfg.maxStakePerWindow >= 0.0
    requires i < |s.core.orders| && i in s.core.acked && Undisturbed(s, step, i)
    requires Queued(LifeOf(s.core, i), r, volume) && volume >= 0.0
    requires more == volume + StepVolume(s, step, s.core.orders[i], r)
    ensures var n := Next(cfg, s, step);
            && Inv(cfg, Resumed(n)) && i < |n.core.orders| && i in n.core.acked
            && SameContract(s.core.orders[i], n.core.orders[i]) && Queued(LifeOf(n.core, i), r, more)
  {
    LifeResumed(s, i);
    StepInv(cfg, Resumed(s), step);
    QueuedNext(cfg, Resumed(s), step, i, r, volume, more);
  }

  lemma QueueHead(cfg: Config, s: System, steps: seq<Step>, i: nat, r: Rest, volume: real, total: real)
    returns (more: real)
    requires QueueGoesOn(cfg, s, steps, i, r, volume, total) && steps != [] && cfg.maxStakePerWindow >= 0.0
    ensures QueueGoesOn(cfg, Next(cfg, s, steps[0]), steps[1..], i, r, more, total)
    ensures SameContract(s.core.orders[i], Next(cfg, s, steps[0]).core.orders[i])
  {
    var n := Next(cfg, s, steps[0]);
    more := volume + StepVolume(s, steps[0], s.core.orders[i], r);
    QueuedOn(cfg, s, steps[0], i, r, volume, more);
    VolumeStep(cfg, s, steps, s.core.orders[i], n.core.orders[i], r, volume);
  }

  lemma {:induction false} QueuedRun(cfg: Config, s: System, steps: seq<Step>, i: nat, r: Rest, volume: real, total: real)
    requires QueueGoesOn(cfg, s, steps, i, r, volume, total) && cfg.maxStakePerWindow >= 0.0
    ensures var t := Run(cfg, s, steps);
            i < |t.core.orders| && Queued(LifeOf(t.core, i), r, total) && SameContract(s.core.orders[i], t.core.orders[i])
    decreases steps
  {
    if steps == [] {
      assert total == volume;
    } else {
      var more := QueueHead(cfg, s, steps, i, r, volume, total);
      QueuedRun(cfg, Next(cfg, s, steps[0]), steps[1..], i, r, more, total);
    }
  }

  /** Over any run in which nobody cancels it, whatever else raises, an order that has just joined the queue fills
      exactly min(size, max(0, V - queue at join)), V being the volume traded through its price while tracked. */
  lemma QueueClosedForm(cfg: Config, s: System, steps: seq<Step>, i: nat)
    requires Inv(cfg, s) && QuietRun(cfg, s, steps, i) && cfg.maxStakePerWindow >= 0.0 && i < |s.core.orders|
    requires var l := LifeOf(s.core, i); l.rest.Some? && l.order.state == Acked && l.cancels == []
    ensures var t := Run(cfg, s, steps);
            var r := LifeOf(s.core, i).rest.value;
            && i < |t.core.orders|
            && t.core.orders[i].filled
               == QueueFill(s.core.orders[i].size, QueueAtJoin(r), RunVolume(cfg, s, steps, s.core.orders[i], r))
  {
    assert Coupled(LifeOf(s.core, i));
    var r := LifeOf(s.core, i).rest.value;
    QueuedRun(cfg, s, steps, i, r, 0.0, RunVolume(cfg, s, steps, s.core.orders[i], r));
  }
}
