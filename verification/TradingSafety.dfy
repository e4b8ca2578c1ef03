/** What holds in every fair run of the system, at any sizes and through exceptions: money, ownership and finality. */
module TradingSafety {
  import opened Grid
  import opened Orders
  import opened Exchange
  import opened OneOrder
  import opened Projection
  import opened NonInterference
  import opened OrderBounds
  import opened CoreBounds
  import opened Ledger
  import opened Risk
  import opened Trading
  import opened TradingBase

  /** Collateral paid by the buy fills of a session. */
  function Paid(journal: seq<Posting>, slug: string): real {
    if journal == [] then 0.0
    else
      var last := journal[|journal| - 1];
      Paid(journal[..|journal| - 1], slug)
      + if last.slug == slug && last.fill.side == Buy then Product(last.fill.price, last.fill.size) else 0.0
  }

  function ExecCost(fills: seq<Exec>): real {
    if fills == [] then 0.0
    else ExecCost(fills[..|fills| - 1]) + Product(fills[|fills| - 1].price, fills[|fills| - 1].size)
  }

  predicate BuysFor(o: Order, slug: string) {
    o.slug == slug && o.side == Buy
  }

  /** The same, order by order, over the first n orders. */
  function PaidByOrder(orders: seq<Order>, journal: seq<Posting>, slug: string, n: nat): real
    requires n <= |orders|
  {
    if n == 0 then 0.0
    else PaidByOrder(orders, journal, slug, n - 1)
         + if BuysFor(orders[n - 1], slug) then ExecCost(FillsOf(journal, n - 1)) else 0.0
  }

  lemma ExecCostAppend(fills: seq<Exec>, e: Exec)
    ensures ExecCost(fills + [e]) == ExecCost(fills) + Product(e.price, e.size)
  {
    assert (fills + [e])[..|fills|] == fills;
  }

  lemma CostAppend(journal: seq<Posting>, p: Posting, id: nat)
    ensures ExecCost(FillsOf(journal + [p], id))
            == ExecCost(FillsOf(journal, id)) + if p.id == id then Product(p.fill.price, p.fill.size) else 0.0
  {
    FillsOfAppend(journal, p, id);
    ExecCostAppend(FillsOf(journal, id), ExecOf(p.fill));
    assert FillsOf(journal, id) + [] == FillsOf(journal, id);
  }

  lemma {:induction false} PaidByOrderAppend(orders: seq<Order>, journal: seq<Posting>, p: Posting, slug: string, n: nat)
    requires n <= |orders|
    ensures PaidByOrder(orders, journal + [p], slug, n) == PaidByOrder(orders, journal, slug, n)
            + if p.id < n && BuysFor(orders[p.id], slug) then Product(p.fill.price, p.fill.size) else 0.0
  {
    if n > 0 {
      PaidByOrderAppend(orders, journal, p, slug, n - 1);
      CostAppend(journal, p, n - 1);
    }
  }

  lemma {:induction false} PaidByNothing(orders: seq<Order>, slug: string, n: nat)
    requires n <= |orders|
    ensures PaidByOrder(orders, [], slug, n) == 0.0
  {
    if n > 0 { PaidByNothing(orders, slug, n - 1); }
  }

  /** Summing the journal by posting or by order gives the same amount. */
  lemma {:induction false} PaidBothWays(orders: seq<Order>, journal: seq<Posting>, slug: string)
    requires forall p <- journal :: p.id < |orders| && p.slug == orders[p.id].slug && p.fill.side == orders[p.id].side
    ensures Paid(journal, slug) == PaidByOrder(orders, journal, slug, |orders|)
  {
    if journal == [] {
      PaidByNothing(orders, slug, |orders|);
    } else {
      var init, last := journal[..|journal| - 1], journal[|journal| - 1];
      assert journal == init + [last] && last in journal && forall p <- init :: p in journal;
      PaidBothWays(orders, init, slug);
      PaidByOrderAppend(orders, init, last, slug, |orders|);
    }
  }

  /** Fills within the limit never cost more than the limit value of what was filled. */
  lemma {:induction false} CostWithinLimit(o: Order, fills: seq<Exec>)
    requires o.side == Buy && forall e <- fills :: ExecOk(o, e)
    ensures FilledBy(fills) >= 0.0 && ExecCost(fills) <= Product(o.price, FilledBy(fills))
  {
    if fills != [] {
      var init, last := fills[..|fills| - 1], fills[|fills| - 1];
      assert last in fills && forall e <- init :: e in fills;
      CostWithinLimit(o, init);
      ProductMonotone(last.price, o.price, last.size);
      ProductSum(o.price, FilledBy(init), last.size);
    }
  }

  lemma OrderCost(c: Core, i: nat)
    requires i < |c.orders| && Within(LifeOf(c, i)) && c.orders[i].side == Buy
    ensures ExecCost(FillsOf(c.journal, i)) <= Product(c.orders[i].price, c.orders[i].size)
  {
    var l := LifeOf(c, i);
    CostWithinLimit(l.order, l.fills);
    ProductGrows(l.order.price, FilledBy(l.fills), l.order.size);
  }

  lemma {:induction false} PaidWithinCommitted(c: Core, slug: string, n: nat)
    requires CoreBounded(c) && n <= |c.orders|
    ensures PaidByOrder(c.orders, c.journal, slug, n) <= Committed(c.orders[..n], slug)
  {
    if n > 0 {
      PaidWithinCommitted(c, slug, n - 1);
      assert c.orders[..n][..n - 1] == c.orders[..n - 1];
      if c.orders[n - 1].side == Buy { OrderCost(c, n - 1); }
    }
  }

  /** At any time, the buy fills of a session have cost at most the stake it has used, which respects the cap. */
  lemma PaidWithinStake(cfg: Config, s: System, slug: string)
    requires Bounded(cfg, s) && slug in s.sessions
    ensures Paid(s.core.journal, slug) <= s.sessions[slug].stake <= cfg.maxStakePerWindow + SIZE_TOL
  {
    PaidBothWays(s.core.orders, s.core.journal, slug);
    PaidWithinCommitted(s.core, slug, |s.core.orders|);
    assert s.core.orders[..|s.core.orders|] == s.core.orders;
  }

  /** A posting's fill is one of its order's, so a sale never costs collateral. */
  lemma {:induction false} PostingIsExec(journal: seq<Posting>, p: Posting)
    requires p in journal
    ensures ExecOf(p.fill) in FillsOf(journal, p.id)
  {
    var init, last := journal[..|journal| - 1], journal[|journal| - 1];
    assert journal == init + [last];
    if p != last { PostingIsExec(init, p); }
  }

  lemma SaleBringsCash(c: Core, p: Posting)
    requires CoreBounded(c) && p in c.journal && p.fill.side == Sell
    ensures p.fill.UsdcDelta() >= 0.0
  {
    PostingIsExec(c.journal, p);
    assert Within(LifeOf(c, p.id));
    assert ExecOk(LifeOf(c, p.id).order, ExecOf(p.fill));
  }

  lemma {:induction false} NetCashAtLeast(journal: seq<Posting>, slug: string)
    requires forall p <- journal :: p.fill.side == Sell ==> p.fill.UsdcDelta() >= 0.0
    ensures NetCash(journal, slug) >= -Paid(journal, slug)
  {
    if journal != [] {
      var init, last := journal[..|journal| - 1], journal[|journal| - 1];
      assert last in journal && forall p <- init :: p in journal;
      NetCashAtLeast(init, slug);
    }
  }

  /** What settling a session now would realise is never worse than losing its whole stake. */
  lemma SettlementAtLeast(cfg: Config, s: System, slug: string, winner: string)
    requires Bounded(cfg, s) && slug in s.sessions
    ensures SettleTotal(s.accounts.BookFor(slug).positions, winner) >= -s.sessions[slug].stake
  {
    SettleAtLeastCash(s.accounts.BookFor(slug).positions, winner);
    CashIsNetCash(s.core.journal, slug);
    forall p | p in s.core.journal && p.fill.side == Sell ensures p.fill.UsdcDelta() >= 0.0 { SaleBringsCash(s.core, p); }
    NetCashAtLeast(s.core.journal, slug);
    PaidWithinStake(cfg, s, slug);
  }

  lemma RealizedAtLeast(cfg: Config, s: System, slug: string)
    requires Bounded(cfg, s) && slug in s.sessions && s.sessions[slug].stage.Done?
    ensures s.accounts.BookFor(slug).realized.Some? && s.accounts.BookFor(slug).realized.value >= -s.sessions[slug].stake
  {
    SettlementAtLeast(cfg, s, slug, s.sessions[slug].meta.TokenFor(s.sessions[slug].stage.outcome));
  }

  /** The window loss bound: in every fair run, whatever the sizes and whatever steps of it raised, no settled session
      has lost more than the stake it used, nor more than the per-window cap. */
  lemma WindowLossBound(cfg: Config, steps: seq<Step>, slug: string)
    requires cfg.maxStakePerWindow >= 0.0 && FairRun(cfg, START, steps)
    requires slug in Run(cfg, START, steps).sessions
    ensures var s := Run(cfg, START, steps);
            && Paid(s.core.journal, slug) <= s.sessions[slug].stake <= cfg.maxStakePerWindow + SIZE_TOL
            && (s.sessions[slug].stage.Done? ==>
                  && s.accounts.BookFor(slug).realized.Some?
                  && s.accounts.BookFor(slug).realized.value >= -s.sessions[slug].stake
                  && s.accounts.BookFor(slug).realized.value >= -(cfg.maxStakePerWindow + SIZE_TOL))
  {
    var s := Run(cfg, START, steps);
    StartInv(cfg);
    RunBounded(cfg, START, steps);
    PaidWithinStake(cfg, s, slug);
    if s.sessions[slug].stage.Done? { RealizedAtLeast(cfg, s, slug); }
  }

  /** All of the order's fills reached accounting. */
  predicate AllPosted(c: Core, i: nat)
    requires i < |c.orders|
  {
    FilledBy(FillsOf(c.journal, i)) == c.orders[i].filled
  }

  /** Accounting misses the end of an order that was FILLED already, to within the size tolerance, when the fill that
      raised came. */
  predicate SliverLost(c: Core, i: nat)
    requires i < |c.orders|
  {
    var posted, o := FilledBy(FillsOf(c.journal, i)), c.orders[i];
    o.state == Filled && o.size - SIZE_TOL <= posted < o.filled <= o.size
  }

  ghost predicate AllExact(c: Core) {
    forall i :: 0 <= i < |c.orders| ==> AllPosted(c, i)
  }

  lemma DraftExact(s: System, slug: string, intent: Intent)
    requires Orderly(s.core) && !s.core.fault && slug in s.sessions && AllExact(s.core)
    ensures AllExact(DraftOrder(s, slug, intent).core)
  {
    var c, n := DraftOrder(s, slug, intent).core, |s.core.orders|;
    DraftedProjects(s.core, c.orders[n]);
    assert LifeOf(c, n).fills == [];
    forall i | 0 <= i < n ensures AllPosted(c, i) { assert AllPosted(s.core, i); }
  }

  lemma CoreExact(s: System, c: Core)
    requires Bounds(s.core, c, RetiredOrders(s)) && AllExact(s.core) && !c.fault
    ensures AllExact(c)
  {
    forall i | 0 <= i < |c.orders| ensures AllPosted(c, i) {
      assert AllPosted(s.core, i) && Exact(LifeOf(s.core, i)) && Exact(LifeOf(c, i));
    }
  }

  /** Only a step that raises leaves accounting behind. */
  lemma StepExact(cfg: Config, s: System, step: Step)
    requires Bounded(cfg, s) && AllExact(s.core) && !Next(cfg, s, step).core.fault
    ensures AllExact(Next(cfg, s, step).core)
  {
    ResumedBounded(cfg, s);
    ResumedExact(s);
    CalmExact(cfg, Resumed(s), step);
  }

  lemma ResumedExact(s: System)
    requires AllExact(s.core)
    ensures AllExact(Resumed(s).core)
  {
    forall i | 0 <= i < |s.core.orders| ensures AllPosted(Resumed(s).core, i) { assert AllPosted(s.core, i); }
  }

  lemma CalmExact(cfg: Config, s: System, step: Step)
    requires Bounded(cfg, s) && AllExact(s.core) && !s.core.fault && !Next(cfg, s, step).core.fault
    ensures AllExact(Next(cfg, s, step).core)
  {
    if TradingStep(step) {
      CoreBoundsStep(cfg, s, step);
      CoreExact(s, Next(cfg, s, step).core);
    } else if step.Intend? && Admitted(cfg, s, step.slug, step.intent, step.view) {
      DraftExact(s, step.slug, step.intent);
    }
  }

  lemma {:induction false} RunExact(cfg: Config, s: System, steps: seq<Step>)
    requires Bounded(cfg, s) && FairRun(cfg, s, steps) && cfg.maxStakePerWindow >= 0.0
    requires AllExact(s.core) && !RaisedIn(cfg, s, steps)
    ensures AllExact(Run(cfg, s, steps).core)
    decreases steps
  {
    if steps != [] {
      StepBounded(cfg, s, steps[0]);
      StepExact(cfg, s, steps[0]);
      RunExact(cfg, Next(cfg, s, steps[0]), steps[1..]);
    }
  }

  /** Conservation and ownership: every posting sits under its own order's session and every book is the fold of
      exactly its session's fills; no order has more posted than its size, and what was posted is what the order
      counts as filled, but for less than the size tolerance of a FILLED order if some step of the run raised. */
  lemma Conservation(cfg: Config, steps: seq<Step>)
    requires cfg.maxStakePerWindow >= 0.0 && FairRun(cfg, START, steps)
    ensures var s := Run(cfg, START, steps);
            && (forall i :: 0 <= i < |s.core.orders| ==> FilledBy(FillsOf(s.core.journal, i)) <= s.core.orders[i].size)
            && (forall i :: 0 <= i < |s.core.orders| ==> AllPosted(s.core, i) || SliverLost(s.core, i))
            && (!RaisedIn(cfg, START, steps) ==> forall i :: 0 <= i < |s.core.orders| ==> AllPosted(s.core, i))
            && (forall p <- s.core.journal :: p.id < |s.core.orders| && p.slug == s.core.orders[p.id].slug)
            && (forall slug :: s.accounts.BookFor(slug).positions == BookOfPostings(s.core.journal, slug).positions)
  {
    var s := Run(cfg, START, steps);
    StartInv(cfg);
    RunBounded(cfg, START, steps);
    if !RaisedIn(cfg, START, steps) { RunExact(cfg, START, steps); }
    forall i | 0 <= i < |s.core.orders|
      ensures FilledBy(FillsOf(s.core.journal, i)) <= s.core.orders[i].size
      ensures AllPosted(s.core, i) || SliverLost(s.core, i)
    {
      assert Within(LifeOf(s.core, i)) && Tallied(LifeOf(s.core, i));
    }
  }

  lemma SettledOther(s: System, slug: string, other: string, outcome: Outcome)
    requires slug in s.sessions && other in s.sessions && slug != other && TokensOk(s.sessions)
    ensures Settle(s, other, outcome).accounts.BookFor(slug) == s.accounts.BookFor(slug)
  {
    assert s.sessions[other].meta.slug == other;
  }

  lemma CoreKeepsSettled(cfg: Config, s: System, step: Step, slug: string)
    requires Bounded(cfg, s) && TradingStep(step) && slug in s.sessions && s.sessions[slug].stage.Done?
    ensures Next(cfg, s, step).sessions == s.sessions
    ensures Next(cfg, s, step).accounts.BookFor(slug) == s.accounts.BookFor(slug)
  {
    ResumedBounded(cfg, s);
    CoreStepBounded(cfg, Resumed(s), step);
    if Next(cfg, s, step) != Resumed(s) { FrozenCounts(Resumed(s), Next(cfg, s, step).core, slug); }
  }

  lemma SettleKeepsSettled(cfg: Config, s: System, other: string, outcome: Outcome, slug: string)
    requires TokensOk(s.sessions) && slug in s.sessions && s.sessions[slug].stage.Done?
    ensures var t := Next(cfg, s, SettleSession(other, outcome));
            && slug in t.sessions && t.sessions[slug] == s.sessions[slug]
            && t.accounts.BookFor(slug) == s.accounts.BookFor(slug)
  {
    if other in s.sessions && s.sessions[other].stage == Settling { SettledOther(s, slug, other, outcome); }
  }

  lemma EngineKeepsSettled(cfg: Config, s: System, step: Step, slug: string)
    requires TokensOk(s.sessions) && slug in s.sessions && s.sessions[slug].stage.Done?
    requires step.OpenSession? ==> step.meta.slug !in s.sessions
    requires !TradingStep(step)
    ensures var t := Next(cfg, s, step);
            && slug in t.sessions && t.sessions[slug] == s.sessions[slug]
            && t.accounts.BookFor(slug) == s.accounts.BookFor(slug)
  {
    if step.SettleSession? { SettleKeepsSettled(cfg, s, step.slug, step.outcome, slug); }
  }

  /** A settled session keeps its outcome, its positions and its realised PnL through every step. */
  lemma SettledStep(cfg: Config, s: System, step: Step, slug: string)
    requires Bounded(cfg, s) && Fair(s, step)
    requires slug in s.sessions && s.sessions[slug].stage.Done?
    ensures var t := Next(cfg, s, step);
            && slug in t.sessions && t.sessions[slug] == s.sessions[slug]
            && t.accounts.BookFor(slug) == s.accounts.BookFor(slug)
  {
    if TradingStep(step) { CoreKeepsSettled(cfg, s, step, slug); } else { EngineKeepsSettled(cfg, s, step, slug); }
  }

  lemma FrozenCounts(s: System, c: Core, slug: string)
    requires AccountsOk(s) && Steady(s, c) && slug in s.sessions && s.sessions[slug].stage.Done?
    ensures WithCore(s, c).accounts.BookFor(slug) == s.accounts.BookFor(slug)
  {
    SteadyAccounts(s, c);
    QuietBookFrozen(s, c, slug);
  }

  /** Settle once, then frozen: nothing in any continuation of a run touches a settled session again. */
  lemma {:induction false} SettledForever(cfg: Config, s: System, steps: seq<Step>, slug: string)
    requires Bounded(cfg, s) && FairRun(cfg, s, steps) && cfg.maxStakePerWindow >= 0.0
    requires slug in s.sessions && s.sessions[slug].stage.Done?
    ensures var t := Run(cfg, s, steps);
            && slug in t.sessions && t.sessions[slug] == s.sessions[slug]
            && t.accounts.BookFor(slug) == s.accounts.BookFor(slug)
    decreases steps
  {
    if steps != [] {
      StepBounded(cfg, s, steps[0]);
      SettledStep(cfg, s, steps[0], slug);
      SettledForever(cfg, Next(cfg, s, steps[0]), steps[1..], slug);
    }
  }

  lemma RealizedNow(s: System, slug: string)
    requires AccountsOk(s) && slug in s.sessions && s.sessions[slug].stage.Done?
    ensures var winner := s.sessions[slug].meta.TokenFor(s.sessions[slug].stage.outcome);
            s.accounts.BookFor(slug).realized
            == Some(NetCash(s.core.journal, slug) + Max(NetShares(s.core.journal, slug, winner), 0.0))
  {
    RealizedFromFills(s.core.journal, slug, s.sessions[slug].meta.TokenFor(s.sessions[slug].stage.outcome));
  }

  /** The realised PnL of a settled session, from all the fills it ever had: net cash plus redemption; and each
      day's figure is the sum over its sessions, each counted once. */
  lemma SettlementFromFills(cfg: Config, steps: seq<Step>, slug: string)
    requires cfg.maxStakePerWindow >= 0.0 && FairRun(cfg, START, steps)
    requires slug in Run(cfg, START, steps).sessions && Run(cfg, START, steps).sessions[slug].stage.Done?
    ensures var s := Run(cfg, START, steps);
            var winner := s.sessions[slug].meta.TokenFor(s.sessions[slug].stage.outcome);
            && s.accounts.BookFor(slug).realized
               == Some(NetCash(s.core.journal, slug) + Max(NetShares(s.core.journal, slug, winner), 0.0))
            && DaysOk(s)
  {
    BooksBalance(cfg, steps);
    RealizedNow(Run(cfg, START, steps), slug);
  }

  lemma BooksBalance(cfg: Config, steps: seq<Step>)
    requires cfg.maxStakePerWindow >= 0.0 && FairRun(cfg, START, steps)
    ensures AccountsOk(Run(cfg, START, steps)) && DaysOk(Run(cfg, START, steps))
  {
    StartInv(cfg);
    RunBounded(cfg, START, steps);
  }
}
