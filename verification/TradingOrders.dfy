/** One order through a whole run: finality and teardown. */
module TradingOrders {
  import opened Grid
  import opened Orders
  import opened Books
  import opened Exchange
  import opened OneOrder
  import opened Projection
  import opened NonInterference
  import opened Risk
  import opened Trading
  import opened TradingInvariant

  /** What a step of the system does to one order. */
  function LifeStep(s: System, step: Step, i: nat): Life
    requires i < |s.core.orders|
  {
    var l := LifeOf(s.core, i);
    match step
    case SubmitOrder(id, due) => if id == i then Send(l, due) else l
    case AskCancelOrder(id, due) => if id == i then AskCancel(l, due) else l
    case CancelSession(slug, now, lag) => AskCancelAll(l, slug, now + lag(i))
    case ElapseTo(now) => Elapse(l, BookFor(s.core, s.market, i), FeeFor(s.core, s.market, i), now)
    case Tick(tape) => if tape.token in s.market.books then Tape(l, FeeFor(s.core, s.market, i), tape) else l
    case _ => l
  }

  lemma SubmitLife(s: System, id: nat, due: int, i: nat)
    requires Orderly(s.core) && !s.core.fault && i < |s.core.orders| && id < |s.core.orders|
    requires !Submit(s.core, id, due).fault
    ensures LifeOf(Submit(s.core, id, due), i) == LifeStep(s, SubmitOrder(id, due), i)
  {
    SendMoves(s.core, id, due);
  }

  lemma AskCancelLife(s: System, id: nat, due: int, i: nat)
    requires Orderly(s.core) && !s.core.fault && i < |s.core.orders| && id < |s.core.orders|
    ensures LifeOf(RequestCancel(s.core, id, due), i) == LifeStep(s, AskCancelOrder(id, due), i)
  {
    AskCancelMoves(s.core, id, due);
  }

  lemma DraftLife(s: System, slug: string, intent: Intent, i: nat)
    requires Orderly(s.core) && !s.core.fault && i < |s.core.orders| && slug in s.sessions
    ensures LifeOf(DraftOrder(s, slug, intent).core, i) == LifeOf(s.core, i)
  {
    DraftedProjects(s.core, DraftOrder(s, slug, intent).core.orders[|s.core.orders|]);
  }

  lemma ElapseLife(s: System, now: int, i: nat)
    requires Orderly(s.core) && !s.core.fault && i < |s.core.orders| && !ProcessDue(s.core, s.market, now).fault
    ensures LifeOf(ProcessDue(s.core, s.market, now), i) == LifeStep(s, ElapseTo(now), i)
  {
    ProcessDueProjects(s.core, s.market, now);
  }

  lemma TickLife(s: System, tape: Print, i: nat)
    requires Orderly(s.core) && !s.core.fault && i < |s.core.orders| && !OnTrade(s.core, s.market, tape).fault
    ensures tape.token in s.market.books ==> LifeOf(OnTrade(s.core, s.market, tape), i) == LifeStep(s, Tick(tape), i)
  {
    OnTradeProjects(s.core, s.market, tape);
  }

  lemma RequestLife(cfg: Config, s: System, step: Step, i: nat)
    requires Orderly(s.core) && !s.core.fault && !Next(cfg, s, step).core.fault && i < |s.core.orders|
    requires step.Intend? || step.SubmitOrder? || step.AskCancelOrder?
    ensures i < |Next(cfg, s, step).core.orders| && LifeOf(Next(cfg, s, step).core, i) == LifeStep(s, step, i)
  {
    match step
    case Intend(slug, intent, view) => if Admitted(cfg, s, slug, intent, view) { DraftLife(s, slug, intent, i); }
    case SubmitOrder(id, due) => if id < |s.core.orders| { SubmitLife(s, id, due, i); }
    case AskCancelOrder(id, due) => if id < |s.core.orders| { AskCancelLife(s, id, due, i); }
  }

  lemma ClearLife(cfg: Config, s: System, slug: string, now: int, lag: nat -> nat, i: nat)
    requires Orderly(s.core) && !s.core.fault && i < |s.core.orders|
    ensures var t := Next(cfg, s, CancelSession(slug, now, lag));
            i < |t.core.orders| && LifeOf(t.core, i) == LifeStep(s, CancelSession(slug, now, lag), i)
  {
    CancelAllLife(s.core, slug, now, lag, i);
  }

  lemma TimeLife(cfg: Config, s: System, now: int, i: nat)
    requires Orderly(s.core) && !s.core.fault && !Next(cfg, s, ElapseTo(now)).core.fault && i < |s.core.orders|
    ensures i < |Next(cfg, s, ElapseTo(now)).core.orders|
    ensures LifeOf(Next(cfg, s, ElapseTo(now)).core, i) == LifeStep(s, ElapseTo(now), i)
  {
    ElapseLife(s, now, i);
  }

  lemma PrintLife(cfg: Config, s: System, tape: Print, i: nat)
    requires Orderly(s.core) && !s.core.fault && !Next(cfg, s, Tick(tape)).core.fault && i < |s.core.orders|
    ensures i < |Next(cfg, s, Tick(tape)).core.orders|
    ensures LifeOf(Next(cfg, s, Tick(tape)).core, i) == LifeStep(s, Tick(tape), i)
  {
    if tape.token in s.market.books { TickLife(s, tape, i); }
  }

  /** Every step of the system does to an order exactly what that order's own machine does. */
  lemma StepLife(cfg: Config, s: System, step: Step, i: nat)
    requires Orderly(s.core) && !s.core.fault && !Next(cfg, s, step).core.fault && i < |s.core.orders|
    ensures i < |Next(cfg, s, step).core.orders| && LifeOf(Next(cfg, s, step).core, i) == LifeStep(s, step, i)
  {
    if step.Intend? || step.SubmitOrder? || step.AskCancelOrder? {
      RequestLife(cfg, s, step, i);
    } else if step.CancelSession? {
      ClearLife(cfg, s, step.slug, step.now, step.lag, i);
    } else if step.ElapseTo? {
      TimeLife(cfg, s, step.now, i);
    } else if step.Tick? {
      PrintLife(cfg, s, step.tape, i);
    }
  }

  /** The same when the step raises: what was caught leaves no mark, and of the order's due cancels only the first k
      arrived. */
  function LifeCut(s: System, step: Step, i: nat, k: nat): Life
    requires i < |s.core.orders|
  {
    if step.ElapseTo? then ElapseUpTo(LifeOf(s.core, i), BookFor(s.core, s.market, i), FeeFor(s.core, s.market, i), step.now, k)
    else LifeStep(s, step, i).(raised := false)
  }

  lemma SubmitCut(cfg: Config, s: System, step: Step, i: nat)
    requires Orderly(s.core) && !s.core.fault && i < |s.core.orders| && step.SubmitOrder?
    ensures i < |Next(cfg, s, step).core.orders|
    ensures LifeOf(Next(cfg, s, step).core, i) == LifeStep(s, step, i).(raised := false)
  {
    if step.id < |s.core.orders| { SentLife(s.core, step.id, step.due, i); }
  }

  lemma SentLife(c: Core, id: nat, due: int, i: nat)
    requires Orderly(c) && !c.fault && i < |c.orders| && id < |c.orders|
    ensures i < |Submit(c, id, due).orders|
    ensures LifeOf(Submit(c, id, due), i) == if id == i then Send(LifeOf(c, i), due).(raised := false) else LifeOf(c, i)
  {
    SendMoves(c, id, due);
  }

  /** Every lawful step of the system, raising or not, does to an order what that order's own machine does. */
  lemma StepCut(cfg: Config, s: System, step: Step, i: nat) returns (k: nat)
    requires Inv(cfg, s) && Lawful(s, step) && cfg.maxStakePerWindow >= 0.0 && i < |s.core.orders|
    ensures i < |Next(cfg, s, step).core.orders| && LifeOf(Next(cfg, s, step).core, i) == LifeCut(s, step, i, k)
  {
    k := 0;
    if step.ElapseTo? {
      PlacesQuiet(cfg, s, step.now);
      k := ElapseCut(s.core, s.market, step.now, i);
    } else if step.SubmitOrder? {
      SubmitCut(cfg, s, step, i);
    } else {
      StepInv(cfg, s, step);
      StepLife(cfg, s, step, i);
    }
  }

  /** Nothing in the future of a resumed system depends on what was caught. */
  lemma LifeResumed(s: System, i: nat)
    requires i < |s.core.orders|
    ensures i < |Resumed(s).core.orders| && LifeOf(Resumed(s).core, i) == LifeOf(s.core, i)
  {
  }

  // ---- finality

  lemma TerminalElapse(l: Life, book: Option<Book>, fee: Option<real>, now: int, k: nat)
    requires Coupled(l) && l.order.Terminal() && Usable(book, fee)
    ensures ElapseUpTo(l, book, fee, now, k).order == l.order && ElapseUpTo(l, book, fee, now, k).fills == l.fills
  {
    PlacesDueCoupled(l, book, fee, now);
    var dues := SortTimes(TimesBy(l.cancels, now));
    DropTerminal(l.(cancels := TimesAfter(l.cancels, now)), if k <= |dues| then dues[..k] else dues);
  }

  lemma TerminalStep(cfg: Config, s: System, step: Step, i: nat, k: nat)
    requires Inv(cfg, s) && i < |s.core.orders| && s.core.orders[i].Terminal()
    ensures var l, r := LifeOf(s.core, i), LifeCut(s, step, i, k);
            r.order == l.order && r.fills == l.fills
  {
    assert Coupled(LifeOf(s.core, i));
    if step.ElapseTo? {
      MarketFor(cfg, s, i);
      TerminalElapse(LifeOf(s.core, i), BookFor(s.core, s.market, i), FeeFor(s.core, s.market, i), step.now, k);
    } else {
      TerminalOther(s, step, i);
    }
  }

  lemma TerminalOther(s: System, step: Step, i: nat)
    requires i < |s.core.orders| && Coupled(LifeOf(s.core, i)) && s.core.orders[i].Terminal() && !step.ElapseTo?
    ensures var l, r := LifeOf(s.core, i), LifeStep(s, step, i); r.order == l.order && r.fills == l.fills
  {
  }

  /** Terminal states are final: no fill, no cancel and no later event, raising or not, changes a terminal order or
      adds a posting for it. */
  lemma {:induction false} TerminalForever(cfg: Config, s: System, steps: seq<Step>, i: nat)
    requires Inv(cfg, Resumed(s)) && LawfulRun(cfg, s, steps) && cfg.maxStakePerWindow >= 0.0
    requires i < |s.core.orders| && s.core.orders[i].Terminal()
    ensures var t := Run(cfg, s, steps);
            && i < |t.core.orders|
            && LifeOf(t.core, i).order == LifeOf(s.core, i).order
            && FillsOf(t.core.journal, i) == FillsOf(s.core.journal, i)
    decreases steps
  {
    if steps != [] {
      var r, n := Resumed(s), Next(cfg, s, steps[0]);
      StepInv(cfg, r, steps[0]);
      var k := StepCut(cfg, r, steps[0], i);
      TerminalStep(cfg, r, steps[0], i, k);
      LifeResumed(s, i);
      assert LifeOf(n.core, i).order.Terminal();
      TerminalForever(cfg, n, steps[1..], i);
    }
  }

  // ---- teardown

  /** The order is out of the exchange, or a cancel for it is on its way. */
  predicate Doomed(l: Life) {
    (l.places == [] && l.rest.None?) || l.cancels != []
  }

  lemma {:induction false} CancelsSplit(ts: seq<int>, now: int)
    ensures ts != [] ==> TimesBy(ts, now) != [] || TimesAfter(ts, now) != []
    ensures (forall t <- ts :: t <= now) ==> TimesAfter(ts, now) == []
    ensures (forall t <- ts :: t <= now) && ts != [] ==> TimesBy(ts, now) != []
  {
    if ts != [] {
      assert ts[0] in ts && forall t <- ts[1..] :: t in ts;
      CancelsSplit(ts[1..], now);
    }
  }

  lemma {:induction false} DropAllCancels(l: Life, dues: seq<int>)
    ensures DropAll(l, dues).cancels == l.cancels
    decreases dues
  {
    if dues != [] && !l.raised { DropAllCancels(Drop(l), dues[1..]); }
  }

  /** process_due keeps an order doomed, and keeps it in DRAFT exactly if it was. */
  lemma ElapseDoomed(l: Life, book: Option<Book>, fee: Option<real>, now: int)
    requires Coupled(l) && Usable(book, fee) && Doomed(l) && !Elapse(l, book, fee, now).raised
    ensures Doomed(Elapse(l, book, fee, now)) && (Elapse(l, book, fee, now).order.state == Draft <==> l.order.state == Draft)
    ensures (forall t <- l.places + l.cancels :: t <= now) ==>
              var r := Elapse(l, book, fee, now);
              r.places == [] && r.rest.None? && (r.order.Terminal() || r.order.state == Draft)
  {
    ElapseCoupled(l, book, fee, now);
    PlacesDueCoupled(l, book, fee, now);
    CancelsSplit(l.cancels, now);
    var l1 := PlacesDue(l, book, fee, now);
    var dues := SortTimes(TimesBy(l1.cancels, now));
    DropAllCancels(l1.(cancels := TimesAfter(l1.cancels, now)), dues);
    DropAllCalm(l1.(cancels := TimesAfter(l1.cancels, now)), dues);
    assert forall t <- l.cancels :: t in l.places + l.cancels;
    if TimesBy(l.cancels, now) == [] {
      assert Elapse(l, book, fee, now) == l1.(cancels := TimesAfter(l1.cancels, now));
    }
  }

  /** The order can still be submitted: it is in DRAFT, and this step does it. */
  predicate Placement(s: System, step: Step, i: nat) {
    step.SubmitOrder? && step.id == i && i < |s.core.orders| && s.core.orders[i].state == Draft
  }

  /** What teardown may rely on: a step that neither places the order nor lets a cancel fall due for a DRAFT order. */
  ghost predicate Tearing(s: System, step: Step, i: nat) {
    Lawful(s, step) && !Placement(s, step, i) && (step.ElapseTo? ==> !Overdue(s, step.now))
  }

  /** Once a cancel is on its way it stays on its way until it has removed the order; only submitting takes an order
      out of DRAFT. */
  predicate StaysDoomed(l: Life, r: Life) {
    Doomed(r) && (r.order.state == Draft <==> l.order.state == Draft) && r.order.slug == l.order.slug
  }

  lemma DoomedElapse(cfg: Config, s: System, now: int, i: nat)
    requires Inv(cfg, s) && i < |s.core.orders| && Doomed(LifeOf(s.core, i))
    requires !LifeStep(s, ElapseTo(now), i).raised
    ensures StaysDoomed(LifeOf(s.core, i), LifeStep(s, ElapseTo(now), i))
  {
    var l := LifeOf(s.core, i);
    MarketFor(cfg, s, i);
    ElapseDoomed(l, BookFor(s.core, s.market, i), FeeFor(s.core, s.market, i), now);
    ElapseContract(l, BookFor(s.core, s.market, i), FeeFor(s.core, s.market, i), now);
  }

  lemma TapeDoomed(l: Life, fee: Option<real>, tp: Print)
    requires Coupled(l) && Doomed(l)
    ensures StaysDoomed(l, Tape(l, fee, tp))
  {
    TapeContract(l, fee, tp);
    if l.rest.Some? { EmitKeepsTerms(l, fee, l.order.price, TapeFill(l.rest.value, tp.size), false); }
  }

  lemma SendDoomed(l: Life, due: int)
    requires Coupled(l) && Doomed(l) && l.order.state != Draft
    ensures StaysDoomed(l, Send(l, due).(raised := false))
  {
    SendCoupled(l, due);
  }

  lemma DoomedRequest(s: System, step: Step, i: nat)
    requires i < |s.core.orders| && Coupled(LifeOf(s.core, i)) && Doomed(LifeOf(s.core, i)) && !Placement(s, step, i)
    requires !step.ElapseTo? && !step.Tick?
    ensures StaysDoomed(LifeOf(s.core, i), LifeStep(s, step, i).(raised := false))
  {
    if step.SubmitOrder? && step.id == i { SendDoomed(LifeOf(s.core, i), step.due); }
  }

  lemma DoomedStep(cfg: Config, s: System, step: Step, i: nat)
    requires Inv(cfg, s) && Tearing(s, step, i) && i < |s.core.orders| && cfg.maxStakePerWindow >= 0.0
    requires Doomed(LifeOf(s.core, i))
    ensures i < |Next(cfg, s, step).core.orders| && StaysDoomed(LifeOf(s.core, i), LifeOf(Next(cfg, s, step).core, i))
  {
    assert Coupled(LifeOf(s.core, i));
    StepInv(cfg, s, step);
    if step.SubmitOrder? {
      SubmitCut(cfg, s, step, i);
      DoomedRequest(s, step, i);
    } else {
      StepLife(cfg, s, step, i);
      DoomedOther(cfg, s, step, i);
    }
  }

  lemma DoomedOther(cfg: Config, s: System, step: Step, i: nat)
    requires Inv(cfg, s) && i < |s.core.orders| && Doomed(LifeOf(s.core, i)) && !step.SubmitOrder?
    requires !LifeStep(s, step, i).raised
    ensures StaysDoomed(LifeOf(s.core, i), LifeStep(s, step, i))
  {
    assert Coupled(LifeOf(s.core, i));
    if step.ElapseTo? {
      DoomedElapse(cfg, s, step.now, i);
    } else if step.Tick? {
      TapeDoomed(LifeOf(s.core, i), FeeFor(s.core, s.market, i), step.tape);
    } else {
      DoomedRequest(s, step, i);
    }
  }

  /** Cancelling a session dooms every order of it that the exchange holds. */
  lemma CancelSessionDooms(cfg: Config, s: System, slug: string, now: int, lag: nat -> nat, i: nat)
    requires Inv(cfg, s) && i < |s.core.orders| && s.core.orders[i].slug == slug
    ensures var r := LifeStep(s, CancelSession(slug, now, lag), i);
            Doomed(r) && (r.order.state == Draft <==> s.core.orders[i].state == Draft)
  {
    AskAllDooms(LifeOf(s.core, i), slug, now + lag(i));
  }

  lemma AskAllDooms(l: Life, slug: string, due: int)
    requires Coupled(l)
    ensures var r := AskCancelAll(l, slug, due);
            && (l.order.slug == slug ==> Doomed(r)) && (r.order.state == Draft <==> l.order.state == Draft)
            && (l.order.state == Draft ==> r.cancels == l.cancels) && r.order.slug == l.order.slug
  {
    if l.places != [] { assert CopyTimes(l.places, due) != []; }
  }

  ghost predicate TearingRun(cfg: Config, s: System, steps: seq<Step>, i: nat)
    decreases steps
  {
    steps != [] ==> Tearing(s, steps[0], i) && TearingRun(cfg, Next(cfg, s, steps[0]), steps[1..], i)
  }

  lemma {:induction false} DoomedRun(cfg: Config, s: System, steps: seq<Step>, i: nat)
    requires Inv(cfg, Resumed(s)) && TearingRun(cfg, s, steps, i) && cfg.maxStakePerWindow >= 0.0
    requires i < |s.core.orders| && Doomed(LifeOf(s.core, i))
    ensures var t := Run(cfg, s, steps);
            && i < |t.core.orders| && Inv(cfg, Resumed(t)) && StaysDoomed(LifeOf(s.core, i), LifeOf(t.core, i))
    decreases steps
  {
    if steps != [] {
      var r, n := Resumed(s), Next(cfg, s, steps[0]);
      LifeResumed(s, i);
      StepInv(cfg, r, steps[0]);
      DoomedStep(cfg, r, steps[0], i);
      DoomedRun(cfg, n, steps[1..], i);
    }
  }

  /** Once time has passed every due time recorded for a doomed order, the exchange has let go of it, and it is terminal
      exactly if it was past DRAFT. */
  lemma DoomedEnds(cfg: Config, s: System, now: int, i: nat)
    requires Inv(cfg, s) && cfg.maxStakePerWindow >= 0.0 && i < |s.core.orders| && Doomed(LifeOf(s.core, i))
    requires !Overdue(s, now)
    requires forall t <- LifeOf(s.core, i).places + LifeOf(s.core, i).cancels :: t <= now
    ensures var r := Next(cfg, s, ElapseTo(now));
            && i < |r.core.orders|
            && LifeOf(r.core, i).places == [] && LifeOf(r.core, i).rest.None?
            && (r.core.orders[i].Terminal() <==> s.core.orders[i].state != Draft)
  {
    StepInv(cfg, s, ElapseTo(now));
    StepLife(cfg, s, ElapseTo(now), i);
    MarketFor(cfg, s, i);
    assert Coupled(LifeOf(s.core, i));
    ElapseDoomed(LifeOf(s.core, i), BookFor(s.core, s.market, i), FeeFor(s.core, s.market, i), now);
    OrderOfLife(Next(cfg, s, ElapseTo(now)).core, i);
  }

  lemma OrderOfLife(c: Core, i: nat)
    requires i < |c.orders|
    ensures LifeOf(c, i).order.slug == c.orders[i].slug
    ensures LifeOf(c, i).order.state == c.orders[i].state && LifeOf(c, i).order.Terminal() == c.orders[i].Terminal()
    ensures c.orders[i].state == Draft ==> !c.orders[i].Terminal()
  {
  }

  /** Teardown completes: cancel a session, let anything lawful happen but submitting its order from DRAFT or letting a
      cancel fall due for an order in DRAFT, and let time pass every due time recorded for the order. Whichever of
      place, cancel and tape won, the exchange has let go of the order, and it is terminal exactly if it was past DRAFT
      when the session was cancelled. */
  lemma Teardown(cfg: Config, s: System, slug: string, at: int, lag: nat -> nat, steps: seq<Step>, now: int, i: nat)
    requires Inv(cfg, s) && cfg.maxStakePerWindow >= 0.0 && i < |s.core.orders| && s.core.orders[i].slug == slug
    requires TearingRun(cfg, Next(cfg, s, CancelSession(slug, at, lag)), steps, i)
    requires var s2 := Run(cfg, Next(cfg, s, CancelSession(slug, at, lag)), steps);
             && !Overdue(s2, now)
             && (i < |s2.core.orders| ==> forall t <- LifeOf(s2.core, i).places + LifeOf(s2.core, i).cancels :: t <= now)
    ensures var s3 := Next(cfg, Run(cfg, Next(cfg, s, CancelSession(slug, at, lag)), steps), ElapseTo(now));
            && i < |s3.core.orders|
            && LifeOf(s3.core, i).places == [] && LifeOf(s3.core, i).rest.None?
            && (s3.core.orders[i].Terminal() <==> s.core.orders[i].state != Draft)
  {
    var s1 := Next(cfg, s, CancelSession(slug, at, lag));
    var s2 := Run(cfg, s1, steps);
    StepInv(cfg, s, CancelSession(slug, at, lag));
    StepLife(cfg, s, CancelSession(slug, at, lag), i);
    CancelSessionDooms(cfg, s, slug, at, lag, i);
    DoomedRun(cfg, s1, steps, i);
    LifeResumed(s2, i);
    OrderOfLife(s2.core, i);
    OrderOfLife(Resumed(s2).core, i);
    DoomedEnds(cfg, Resumed(s2), now, i);
  }

  /** An order still in DRAFT when its session is cancelled escapes: submitted afterwards it is pending, and no cancel is
      on its way to it. */
  lemma DraftEscapes(cfg: Config, s: System, slug: string, at: int, lag: nat -> nat, i: nat, due: int)
    requires Inv(cfg, s) && cfg.maxStakePerWindow >= 0.0 && i < |s.core.orders| && s.core.orders[i].slug == slug
    requires s.core.orders[i].state == Draft && LifeOf(s.core, i).cancels == []
    ensures var t := Next(cfg, Next(cfg, s, CancelSession(slug, at, lag)), SubmitOrder(i, due));
            && !t.core.fault && i < |t.core.orders|
            && t.core.orders[i].state == Acked && LifeOf(t.core, i).places == [due] && LifeOf(t.core, i).cancels == []
  {
    var s1 := Next(cfg, s, CancelSession(slug, at, lag));
    DraftPassedOver(cfg, s, slug, at, lag, i);
    DraftPlaced(cfg, s1, i, due);
  }

  lemma DraftPassedOver(cfg: Config, s: System, slug: string, at: int, lag: nat -> nat, i: nat)
    requires Inv(cfg, s) && cfg.maxStakePerWindow >= 0.0 && i < |s.core.orders| && s.core.orders[i].slug == slug
    requires s.core.orders[i].state == Draft && LifeOf(s.core, i).cancels == []
    ensures var t := Next(cfg, s, CancelSession(slug, at, lag));
            && Inv(cfg, t) && i < |t.core.orders| && t.core.orders[i].state == Draft && LifeOf(t.core, i).cancels == []
  {
    StepInv(cfg, s, CancelSession(slug, at, lag));
    StepLife(cfg, s, CancelSession(slug, at, lag), i);
    AskAllDooms(LifeOf(s.core, i), slug, at + lag(i));
    OrderOfLife(Next(cfg, s, CancelSession(slug, at, lag)).core, i);
  }

  lemma DraftPlaced(cfg: Config, s: System, i: nat, due: int)
    requires Inv(cfg, s) && cfg.maxStakePerWindow >= 0.0 && i < |s.core.orders|
    requires s.core.orders[i].state == Draft && LifeOf(s.core, i).cancels == []
    ensures var t := Next(cfg, s, SubmitOrder(i, due));
            && !t.core.fault && i < |t.core.orders|
            && t.core.orders[i].state == Acked && LifeOf(t.core, i).places == [due] && LifeOf(t.core, i).cancels == []
  {
    assert Coupled(LifeOf(s.core, i));
    SendFromDraft(LifeOf(s.core, i), due);
    SubmitCut(cfg, s, SubmitOrder(i, due), i);
    StepInv(cfg, s, SubmitOrder(i, due));
    OrderOfLife(Next(cfg, s, SubmitOrder(i, due)).core, i);
  }

  lemma SendFromDraft(l: Life, due: int)
    requires Coupled(l) && l.order.state == Draft
    ensures var r := Send(l, due); !r.raised && r.order.state == Acked && r.places == [due] && r.cancels == l.cancels
  {
  }
}
