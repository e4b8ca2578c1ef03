/** The daily loss budget of any buyer that shoots once per window and settles before it shoots again. */
module DailyBudget {
  import opened Orders
  import opened Exchange
  import opened Ledger
  import opened Risk
  import opened Trading
  import opened TradingBase
  import opened TradingSafety

  function SessionDay(sess: Session): int {
    DayOf(sess.meta.windowStart)
  }

  predicate Unsettled(sess: Session) {
    !sess.stage.Done?
  }

  /** Every other window of the day that has traded is settled. */
  ghost predicate OthersSettled(ss: map<string, Session>, slug: string) {
    slug in ss ==>
      forall other <- ss ::
        other != slug && SessionDay(ss[other]) == SessionDay(ss[slug]) && Unsettled(ss[other]) ==> ss[other].stake == 0.0
  }

  /** A step of a one-shot buyer: fired holds the windows it has shot in. */
  ghost predicate OneShotStep(cfg: Config, s: System, step: Step, fired: set<string>) {
    && (step.OpenSession? ==> Aligned(cfg, step.meta))
    && (step.Intend? ==> step.intent.side == Buy && step.slug !in fired && OthersSettled(s.sessions, step.slug))
  }

  function Shots(step: Step, fired: set<string>): set<string> {
    if step.Intend? then fired + {step.slug} else fired
  }

  ghost predicate OneShotRun(cfg: Config, s: System, steps: seq<Step>, fired: set<string>)
    decreases steps
  {
    steps != [] ==>
      OneShotStep(cfg, s, steps[0], fired) && OneShotRun(cfg, Next(cfg, s, steps[0]), steps[1..], Shots(steps[0], fired))
  }

  ghost predicate StakesShot(cfg: Config, ss: map<string, Session>, fired: set<string>) {
    forall slug <- ss ::
      Aligned(cfg, ss[slug].meta) && ss[slug].stake >= 0.0 && (ss[slug].stake > 0.0 ==> slug in fired)
  }

  predicate Rivals(a: Session, b: Session) {
    Unsettled(a) && Unsettled(b) && SessionDay(a) == SessionDay(b) && a.stake > 0.0 && b.stake > 0.0
  }

  /** At most one unsettled window of a day has money at stake. */
  ghost predicate OneAtStake(ss: map<string, Session>) {
    forall a <- ss, b <- ss :: a != b ==> !Rivals(ss[a], ss[b])
  }

  /** Every day is inside its budget, and would be if any one unsettled window of it lost its whole stake. */
  ghost predicate InBudget(cfg: Config, ss: map<string, Session>, a: Accounts) {
    && (forall day :: a.Daily(day) > -cfg.maxDailyLoss)
    && (forall slug <- ss :: Unsettled(ss[slug]) ==> a.Daily(SessionDay(ss[slug])) - ss[slug].stake > -cfg.maxDailyLoss)
  }

  ghost predicate Budgeted(cfg: Config, ss: map<string, Session>, a: Accounts, fired: set<string>) {
    StakesShot(cfg, ss, fired) && OneAtStake(ss) && InBudget(cfg, ss, a)
  }

  lemma Admission(cfg: Config, s: System, slug: string, i: Intent, v: View)
    requires Admitted(cfg, s, slug, i, v) && i.side == Buy && Aligned(cfg, s.sessions[slug].meta)
    ensures s.accounts.Daily(SessionDay(s.sessions[slug])) - Stake(i) > -cfg.maxDailyLoss
  {
    var meta := s.sessions[slug].meta;
    AllowedMeans(cfg, v.killed, v.cooldownUntil, meta, i, ContextOf(s, slug, v));
    EntryOnSettlementDay(cfg, meta, v.now);
  }

  /** A window opened, closed or shot in: its stake is unchanged, or the only one of its day and affordable. */
  lemma Replaced(cfg: Config, ss: map<string, Session>, a: Accounts, fired: set<string>, slug: string, sess: Session)
    requires Budgeted(cfg, ss, a, fired) && Aligned(cfg, sess.meta) && sess.stake >= 0.0
    requires sess.stake > 0.0 ==> slug in fired
    requires sess.stake == 0.0
             || (slug in ss && Unsettled(ss[slug]) && ss[slug].(stage := sess.stage) == sess)
             || (forall other <- ss :: other != slug ==> !Rivals(sess, ss[other]))
    requires Unsettled(sess) ==> a.Daily(SessionDay(sess)) - sess.stake > -cfg.maxDailyLoss
    ensures Budgeted(cfg, ss[slug := sess], a, fired)
  {
    forall other | other in ss && other != slug ensures !Rivals(sess, ss[other]) {
      if slug in ss { assert !Rivals(ss[slug], ss[other]); }
    }
    ReplacedAtStake(ss, slug, sess);
  }

  lemma ReplacedAtStake(ss: map<string, Session>, slug: string, sess: Session)
    requires OneAtStake(ss) && forall other <- ss :: other != slug ==> !Rivals(sess, ss[other])
    ensures OneAtStake(ss[slug := sess])
  {
    var ts := ss[slug := sess];
    forall a, b | a in ts && b in ts && a != b ensures !Rivals(ts[a], ts[b]) {
      if a == slug { assert b in ss && !Rivals(sess, ss[b]); }
      if b == slug { assert a in ss && !Rivals(sess, ss[a]); }
    }
  }

  lemma DraftBudget(cfg: Config, s: System, slug: string, i: Intent, v: View, fired: set<string>)
    requires Budgeted(cfg, s.sessions, s.accounts, fired) && Admitted(cfg, s, slug, i, v)
    requires i.side == Buy && i.size >= 0.0 && i.price >= 0.0 && slug !in fired && OthersSettled(s.sessions, slug)
    ensures Budgeted(cfg, DraftOrder(s, slug, i).sessions, s.accounts, fired + {slug})
  {
    Admission(cfg, s, slug, i, v);
    FiredGrows(cfg, s.sessions, s.accounts, fired, fired + {slug});
    Replaced(cfg, s.sessions, s.accounts, fired + {slug}, slug, s.sessions[slug].(stake := s.sessions[slug].stake + Stake(i)));
  }

  lemma SettledDaily(s: System, slug: string, outcome: Outcome, day: int)
    requires slug in s.sessions
    ensures Settle(s, slug, outcome).accounts.Daily(day)
            == s.accounts.Daily(day)
               + if day == SessionDay(s.sessions[slug])
                 then SettleTotal(s.accounts.BookFor(s.sessions[slug].meta.slug).positions,
                                  s.sessions[slug].meta.TokenFor(outcome))
                 else 0.0
  {
  }

  lemma SettledInBudget(cfg: Config, ss: map<string, Session>, a: Accounts, t: Accounts, slug: string, sess: Session, pnl: real)
    requires slug in ss && Unsettled(ss[slug]) && OneAtStake(ss) && InBudget(cfg, ss, a)
    requires forall other <- ss :: ss[other].stake >= 0.0
    requires pnl >= -ss[slug].stake && !Unsettled(sess)
    requires forall day :: t.Daily(day) == a.Daily(day) + if day == SessionDay(ss[slug]) then pnl else 0.0
    ensures InBudget(cfg, ss[slug := sess], t)
  {
    var ts := ss[slug := sess];
    forall other | other in ts && Unsettled(ts[other])
      ensures t.Daily(SessionDay(ts[other])) - ts[other].stake > -cfg.maxDailyLoss
    {
      assert other != slug && !Rivals(ss[slug], ss[other]);
    }
  }

  lemma SettleBudget(cfg: Config, s: System, slug: string, outcome: Outcome, fired: set<string>)
    requires Bounded(cfg, s) && Budgeted(cfg, s.sessions, s.accounts, fired)
    requires slug in s.sessions && s.sessions[slug].stage == Settling
    ensures Budgeted(cfg, Settle(s, slug, outcome).sessions, Settle(s, slug, outcome).accounts, fired)
  {
    var sess := s.sessions[slug];
    var done := sess.(stage := Done(outcome));
    var pnl := SettleTotal(s.accounts.BookFor(slug).positions, sess.meta.TokenFor(outcome));
    SettlementAtLeast(cfg, s, slug, sess.meta.TokenFor(outcome));
    forall day ensures Settle(s, slug, outcome).accounts.Daily(day) == s.accounts.Daily(day) + if day == SessionDay(sess) then pnl else 0.0 {
      SettledDaily(s, slug, outcome, day);
    }
    SettledInBudget(cfg, s.sessions, s.accounts, Settle(s, slug, outcome).accounts, slug, done, pnl);
    Replaced(cfg, s.sessions, s.accounts, fired, slug, done);
  }

  /** A step of trading proper changes no stake and no day's figure. */
  lemma CoreBudget(cfg: Config, s: System, c: Core, fired: set<string>)
    requires AccountsOk(s) && Budgeted(cfg, s.sessions, s.accounts, fired) && s.core.journal <= c.journal
    ensures Budgeted(cfg, WithCore(s, c).sessions, WithCore(s, c).accounts, fired)
  {
    PostAllBalanced(s.accounts, s.core.journal, c.journal[|s.core.journal|..]);
    SameDaily(cfg, s.sessions, s.accounts, WithCore(s, c).accounts, fired);
  }

  lemma SameDaily(cfg: Config, ss: map<string, Session>, a: Accounts, b: Accounts, fired: set<string>)
    requires Budgeted(cfg, ss, a, fired) && a.daily == b.daily
    ensures Budgeted(cfg, ss, b, fired)
  {
    assert forall day :: a.Daily(day) == b.Daily(day);
  }

  lemma FiredGrows(cfg: Config, ss: map<string, Session>, a: Accounts, fired: set<string>, more: set<string>)
    requires Budgeted(cfg, ss, a, fired) && fired <= more
    ensures Budgeted(cfg, ss, a, more)
  {
  }

  lemma PlainStep(cfg: Config, s: System, step: Step, fired: set<string>)
    requires Bounded(cfg, s) && Budgeted(cfg, s.sessions, s.accounts, fired) && !s.core.fault
    requires TradingStep(step)
    ensures Budgeted(cfg, Next(cfg, s, step).sessions, Next(cfg, s, step).accounts, fired)
  {
    CoreStepBounded(cfg, s, step);
    CoreBudget(cfg, s, Next(cfg, s, step).core, fired);
  }

  lemma SessionBudget(cfg: Config, s: System, step: Step, fired: set<string>)
    requires Bounded(cfg, s) && Budgeted(cfg, s.sessions, s.accounts, fired) && !s.core.fault
    requires Fair(s, step) && OneShotStep(cfg, s, step, fired)
    requires step.OpenSession? || step.CloseSession? || step.SettleSession?
    ensures Budgeted(cfg, Next(cfg, s, step).sessions, Next(cfg, s, step).accounts, fired)
  {
    match step
    case OpenSession(meta) => Replaced(cfg, s.sessions, s.accounts, fired, meta.slug, Session(meta, 0.0, Open));
    case CloseSession(slug) =>
      if slug in s.sessions && s.sessions[slug].stage == Open {
        Replaced(cfg, s.sessions, s.accounts, fired, slug, s.sessions[slug].(stage := Settling));
      }
    case SettleSession(slug, outcome) =>
      if slug in s.sessions && s.sessions[slug].stage == Settling { SettleBudget(cfg, s, slug, outcome, fired); }
  }

  lemma StepBudget(cfg: Config, s: System, step: Step, fired: set<string>)
    requires Bounded(cfg, s) && Budgeted(cfg, s.sessions, s.accounts, fired)
    requires Fair(s, step) && OneShotStep(cfg, s, step, fired)
    ensures Budgeted(cfg, Next(cfg, s, step).sessions, Next(cfg, s, step).accounts, Shots(step, fired))
    decreases s.core.fault
  {
    if s.core.fault {
      ResumedBounded(cfg, s);
      StepBudget(cfg, Resumed(s), step, fired);
    } else if step.OpenSession? || step.CloseSession? || step.SettleSession? {
      SessionBudget(cfg, s, step, fired);
    } else if step.Intend? {
      FiredGrows(cfg, s.sessions, s.accounts, fired, Shots(step, fired));
      if Admitted(cfg, s, step.slug, step.intent, step.view) { DraftBudget(cfg, s, step.slug, step.intent, step.view, fired); }
    } else if !step.BookEvent? {
      PlainStep(cfg, s, step, fired);
    }
  }

  lemma {:induction false} RunBudget(cfg: Config, s: System, steps: seq<Step>, fired: set<string>)
    requires Bounded(cfg, s) && Budgeted(cfg, s.sessions, s.accounts, fired) && cfg.maxStakePerWindow >= 0.0
    requires FairRun(cfg, s, steps) && OneShotRun(cfg, s, steps, fired)
    ensures forall day :: Run(cfg, s, steps).accounts.Daily(day) > -cfg.maxDailyLoss
    decreases steps
  {
    if steps != [] {
      StepBounded(cfg, s, steps[0]);
      StepBudget(cfg, s, steps[0], fired);
      RunBudget(cfg, Next(cfg, s, steps[0]), steps[1..], Shots(steps[0], fired));
    }
  }

  /** In every fair run that shoots at most once per window, and shoots in a window only when the other windows
      traded that day have settled, each day's realised PnL stays strictly above the loss limit. */
  lemma DailyLossBound(cfg: Config, steps: seq<Step>)
    requires cfg.maxStakePerWindow >= 0.0 && cfg.maxDailyLoss > 0.0
    requires FairRun(cfg, START, steps) && OneShotRun(cfg, START, steps, {})
    ensures forall day :: Run(cfg, START, steps).accounts.Daily(day) > -cfg.maxDailyLoss
  {
    StartInv(cfg);
    RunBudget(cfg, START, steps, {});
  }
}
