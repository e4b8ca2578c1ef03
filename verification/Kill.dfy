/** After a kill: no intent is admitted, and every placed order of the sessions at hand ends. */
module Kill {
  import opened Orders
  import opened Projection
  import opened Risk
  import opened Trading
  import opened TradingInvariant
  import opened TradingOrders

  /** Once the kill is latched the gates see it at every intent. */
  ghost predicate KilledStep(step: Step) {
    step.Intend? ==> step.view.killed
  }

  /** A killed trader admits nothing, not even an exit. */
  lemma KilledAdmitsNothing(cfg: Config, s: System, slug: string, i: Intent, v: View)
    requires v.killed
    ensures !Admitted(cfg, s, slug, i, v)
  {
    if slug in s.sessions {
      assert Gate.Killed in FailedGates(cfg, v.killed, v.cooldownUntil, s.sessions[slug].meta, i, ContextOf(s, slug, v));
    }
  }

  lemma NothingDrafted(cfg: Config, s: System, step: Step)
    requires KilledStep(step)
    ensures |Next(cfg, s, step).core.orders| == |s.core.orders|
  {
    if step.Intend? { KilledAdmitsNothing(cfg, Resumed(s), step.slug, step.intent, step.view); }
  }

  /** So no order is drafted after a kill, whatever else happens. */
  lemma {:induction false} NoOrderAfterKill(cfg: Config, s: System, steps: seq<Step>)
    requires forall step <- steps :: KilledStep(step)
    ensures |Run(cfg, s, steps).core.orders| == |s.core.orders|
    decreases steps
  {
    if steps != [] {
      assert steps[0] in steps && forall x <- steps[1..] :: x in steps;
      NothingDrafted(cfg, s, steps[0]);
      NoOrderAfterKill(cfg, Next(cfg, s, steps[0]), steps[1..]);
    }
  }

  // ---- the kill handler

  /** The engine's _on_kill: the orders of the current and the next session are cancelled. */
  function OnKill(slugs: seq<string>, now: int, lag: nat -> nat): seq<Step> {
    if slugs == [] then [] else [CancelSession(slugs[0], now, lag)] + OnKill(slugs[1..], now, lag)
  }

  lemma {:induction false} RunOn(cfg: Config, s: System, steps: seq<Step>, more: seq<Step>, i: nat)
    requires TearingRun(cfg, s, steps, i) && TearingRun(cfg, Run(cfg, s, steps), more, i)
    ensures TearingRun(cfg, s, steps + more, i) && Run(cfg, s, steps + more) == Run(cfg, Run(cfg, s, steps), more)
    decreases steps
  {
    if steps == [] {
      assert steps + more == more;
    } else {
      assert (steps + more)[1..] == steps[1..] + more;
      RunOn(cfg, Next(cfg, s, steps[0]), steps[1..], more, i);
    }
  }

  lemma {:induction false} OnKillTears(cfg: Config, s: System, slugs: seq<string>, now: int, lag: nat -> nat, i: nat)
    ensures TearingRun(cfg, s, OnKill(slugs, now, lag), i)
    decreases slugs
  {
    if slugs != [] {
      assert OnKill(slugs, now, lag)[1..] == OnKill(slugs[1..], now, lag);
      OnKillTears(cfg, Next(cfg, s, CancelSession(slugs[0], now, lag)), slugs[1..], now, lag, i);
    }
  }

  /** Cancelling a session leaves the invariant, and the order in DRAFT exactly if it was. */
  lemma Passed(cfg: Config, s: System, slug: string, now: int, lag: nat -> nat, i: nat)
    requires Inv(cfg, s) && cfg.maxStakePerWindow >= 0.0 && i < |s.core.orders|
    ensures var n := Next(cfg, s, CancelSession(slug, now, lag));
            && Inv(cfg, n) && i < |n.core.orders| && n.core.orders[i].slug == s.core.orders[i].slug
            && (n.core.orders[i].state == Draft <==> s.core.orders[i].state == Draft)
  {
    StepInv(cfg, s, CancelSession(slug, now, lag));
    StepLife(cfg, s, CancelSession(slug, now, lag), i);
    AskAllDooms(LifeOf(s.core, i), slug, now + lag(i));
    OrderOfLife(Next(cfg, s, CancelSession(slug, now, lag)).core, i);
  }

  /** What has been pending for order i is due. */
  ghost predicate AllDue(s: System, i: nat, end: int) {
    i < |s.core.orders| ==> forall t <- LifeOf(s.core, i).places + LifeOf(s.core, i).cancels :: t <= end
  }

  /** Every order of a session the kill handler cancels that was past DRAFT is terminal, and out of the exchange, once
      time has passed its due times; whatever happened meanwhile, short of a cancel falling due for a DRAFT order. */
  lemma {:induction false} KillEnds(cfg: Config, s: System, slugs: seq<string>, at: int, lag: nat -> nat, steps: seq<Step>, end: int, i: nat)
    requires Inv(cfg, s) && cfg.maxStakePerWindow >= 0.0 && i < |s.core.orders|
    requires s.core.orders[i].slug in slugs && s.core.orders[i].state != Draft
    requires TearingRun(cfg, Run(cfg, s, OnKill(slugs, at, lag)), steps, i)
    requires var s2 := Run(cfg, Run(cfg, s, OnKill(slugs, at, lag)), steps); !Overdue(s2, end) && AllDue(s2, i, end)
    ensures var s3 := Next(cfg, Run(cfg, Run(cfg, s, OnKill(slugs, at, lag)), steps), ElapseTo(end));
            && i < |s3.core.orders| && s3.core.orders[i].Terminal()
            && LifeOf(s3.core, i).places == [] && LifeOf(s3.core, i).rest.None?
    decreases slugs
  {
    var rest, n := OnKill(slugs[1..], at, lag), Next(cfg, s, CancelSession(slugs[0], at, lag));
    assert OnKill(slugs, at, lag)[1..] == rest;
    if s.core.orders[i].slug == slugs[0] {
      OnKillTears(cfg, n, slugs[1..], at, lag, i);
      RunOn(cfg, n, rest, steps, i);
      Teardown(cfg, s, slugs[0], at, lag, rest + steps, end, i);
    } else {
      Passed(cfg, s, slugs[0], at, lag, i);
      KillEnds(cfg, n, slugs[1..], at, lag, steps, end, i);
    }
  }
}
