/** What the unsettled windows of a day may still cost it: the exact condition under which settling can take the day to
    its loss limit, whatever the outcomes and the order. */
module WorstCase {
  import opened Grid
  import opened Exchange
  import opened Ledger
  import opened Risk
  import opened Trading
  import opened TradingSafety
  import opened DailyBudget

  function TotalIf(s: System, slug: string, outcome: Outcome): real
    requires slug in s.sessions
  {
    SettleTotal(s.accounts.BookFor(slug).positions, s.sessions[slug].meta.TokenFor(outcome))
  }

  function WorseOutcome(s: System, slug: string): Outcome
    requires slug in s.sessions
  {
    if TotalIf(s, slug, Up) <= TotalIf(s, slug, Down) then Up else Down
  }

  /** What settling a session realises at the worse of its two outcomes. */
  function Worse(s: System, slug: string): real
    requires slug in s.sessions
  {
    Min(TotalIf(s, slug, Up), TotalIf(s, slug, Down))
  }

  ghost function WorseSum(s: System, slugs: set<string>): real
    requires slugs <= s.sessions.Keys
  {
    if slugs == {} then 0.0
    else
      var slug :| slug in slugs;
      WorseSum(s, slugs - {slug}) + Worse(s, slug)
  }

  /** Any session may be taken out first. */
  lemma {:induction false} WorseSumOut(s: System, slugs: set<string>, slug: string)
    requires slugs <= s.sessions.Keys && slug in slugs
    ensures WorseSum(s, slugs) == WorseSum(s, slugs - {slug}) + Worse(s, slug)
    decreases slugs
  {
    var first :| first in slugs && WorseSum(s, slugs) == WorseSum(s, slugs - {first}) + Worse(s, first);
    if first != slug {
      WorseSumOut(s, slugs - {first}, slug);
      WorseSumOut(s, slugs - {slug}, first);
      assert slugs - {first} - {slug} == slugs - {slug} - {first};
    }
  }

  lemma {:induction false} WorseSumSame(s: System, t: System, slugs: set<string>)
    requires slugs <= s.sessions.Keys && slugs <= t.sessions.Keys
    requires forall slug <- slugs :: Worse(s, slug) == Worse(t, slug)
    ensures WorseSum(s, slugs) == WorseSum(t, slugs)
    decreases slugs
  {
    if slugs != {} {
      var slug :| slug in slugs;
      WorseSumOut(s, slugs, slug);
      WorseSumOut(t, slugs, slug);
      WorseSumSame(s, t, slugs - {slug});
    }
  }

  // ---- runs that only settle

  predicate Settling?(step: Step) {
    step.CloseSession? || step.SettleSession?
  }

  ghost predicate OnlySettles(steps: seq<Step>) {
    forall step <- steps :: Settling?(step)
  }

  /** The unsettled sessions of a day. */
  ghost function UnsettledOf(s: System, day: int): set<string> {
    set slug | slug in s.sessions && Unsettled(s.sessions[slug]) && SessionDay(s.sessions[slug]) == day
  }

  /** Those of them that t has settled. */
  ghost function NewlySettled(s: System, t: System, day: int): set<string> {
    UnsettledOf(s, day) - UnsettledOf(t, day)
  }

  /** Nothing that matters for settling has changed but for the stages of sessions. */
  ghost predicate SameStakes(s: System, t: System) {
    && t.sessions.Keys == s.sessions.Keys && TokensOk(t.sessions) && Indexed(t.core)
    && (forall slug <- s.sessions :: t.sessions[slug].meta == s.sessions[slug].meta)
    && (forall slug <- s.sessions :: t.accounts.BookFor(slug).positions == s.accounts.BookFor(slug).positions)
    && (forall slug <- s.sessions :: Unsettled(t.sessions[slug]) ==> Unsettled(s.sessions[slug]))
  }

  lemma SameWorse(s: System, t: System, slug: string)
    requires SameStakes(s, t) && slug in s.sessions
    ensures forall outcome :: TotalIf(t, slug, outcome) == TotalIf(s, slug, outcome)
    ensures Worse(t, slug) == Worse(s, slug)
  {
  }

  lemma StagedTokens(ss: map<string, Session>, slug: string, stage: Stage)
    requires TokensOk(ss) && slug in ss
    ensures TokensOk(ss[slug := ss[slug].(stage := stage)])
  {
    var ts := ss[slug := ss[slug].(stage := stage)];
    assert forall x <- ts, y: string :: ts[x].Owns(y) == ss[x].Owns(y);
  }

  /** One unsettled session has moved on. */
  lemma StagedStakes(s: System, t: System, slug: string, stage: Stage)
    requires TokensOk(s.sessions) && Indexed(t.core) && slug in s.sessions && Unsettled(s.sessions[slug])
    requires t.sessions == s.sessions[slug := s.sessions[slug].(stage := stage)]
    requires forall x <- s.sessions :: t.accounts.BookFor(x).positions == s.accounts.BookFor(x).positions
    ensures SameStakes(s, t)
    ensures forall day :: UnsettledOf(t, day) == if stage.Done? then UnsettledOf(s, day) - {slug} else UnsettledOf(s, day)
  {
    StagedTokens(s.sessions, slug, stage);
  }

  lemma StakesAlike(s: System, t: System)
    requires TokensOk(s.sessions) && Indexed(s.core) && t == Resumed(s)
    ensures SameStakes(s, t) && t.accounts == s.accounts && forall day :: UnsettledOf(t, day) == UnsettledOf(s, day)
  {
  }

  lemma CloseStep(cfg: Config, s: System, slug: string)
    requires TokensOk(s.sessions) && Indexed(s.core)
    ensures var t := Next(cfg, s, CloseSession(slug));
            && SameStakes(s, t) && t.accounts == s.accounts && (forall day :: UnsettledOf(t, day) == UnsettledOf(s, day))
            && (slug in s.sessions && Unsettled(s.sessions[slug]) ==> t.sessions[slug].stage == Settling)
  {
    var t := Next(cfg, s, CloseSession(slug));
    if slug in s.sessions && s.sessions[slug].stage == Open {
      StagedStakes(s, t, slug, Settling);
    } else {
      StakesAlike(s, t);
    }
  }

  lemma SettledBooks(s: System, slug: string, outcome: Outcome)
    requires slug in s.sessions
    ensures forall x :: Settle(s, slug, outcome).accounts.BookFor(x).positions == s.accounts.BookFor(x).positions
  {
  }

  /** Settling one session adds what it realises to its day. */
  lemma SettleStep(cfg: Config, s: System, slug: string, outcome: Outcome)
    requires TokensOk(s.sessions) && Indexed(s.core) && slug in s.sessions && s.sessions[slug].stage == Settling
    ensures var t := Next(cfg, s, SettleSession(slug, outcome));
            && SameStakes(s, t)
            && (forall day :: UnsettledOf(t, day) == UnsettledOf(s, day) - {slug})
            && (forall day :: t.accounts.Daily(day)
                  == s.accounts.Daily(day) + if day == SessionDay(s.sessions[slug]) then TotalIf(s, slug, outcome) else 0.0)
  {
    var t := Next(cfg, s, SettleSession(slug, outcome));
    assert t == Settle(Resumed(s), slug, outcome);
    SettledBooks(Resumed(s), slug, outcome);
    StagedStakes(s, t, slug, Done(outcome));
    forall day { SettledDaily(Resumed(s), slug, outcome, day); }
  }

  lemma NoSettleStep(cfg: Config, s: System, slug: string, outcome: Outcome)
    requires TokensOk(s.sessions) && Indexed(s.core) && !(slug in s.sessions && s.sessions[slug].stage == Settling)
    ensures var t := Next(cfg, s, SettleSession(slug, outcome));
            SameStakes(s, t) && t.accounts == s.accounts && forall day :: UnsettledOf(t, day) == UnsettledOf(s, day)
  {
    StakesAlike(s, Next(cfg, s, SettleSession(slug, outcome)));
  }

  /** What a run that only settles some sessions makes of a day is never less than their worse outcomes. */
  lemma {:induction false} SettlesAtLeast(cfg: Config, s: System, steps: seq<Step>, day: int)
    requires TokensOk(s.sessions) && Indexed(s.core) && OnlySettles(steps)
    ensures var t := Run(cfg, s, steps);
            SameStakes(s, t) && t.accounts.Daily(day) >= s.accounts.Daily(day) + WorseSum(s, NewlySettled(s, t, day))
    decreases steps
  {
    if steps == [] {
      assert NewlySettled(s, s, day) == {};
    } else {
      var step, n, t := steps[0], Next(cfg, s, steps[0]), Run(cfg, s, steps);
      assert step in steps && forall x <- steps[1..] :: x in steps;
      OneSettles(cfg, s, step, day);
      SettlesAtLeast(cfg, n, steps[1..], day);
      Joined(s, n, t, day);
    }
  }

  /** One step of such a run. */
  lemma OneSettles(cfg: Config, s: System, step: Step, day: int)
    requires TokensOk(s.sessions) && Indexed(s.core) && Settling?(step)
    ensures var t := Next(cfg, s, step);
            SameStakes(s, t) && t.accounts.Daily(day) >= s.accounts.Daily(day) + WorseSum(s, NewlySettled(s, t, day))
  {
    var t, slug := Next(cfg, s, step), step.slug;
    if step.CloseSession? {
      CloseStep(cfg, s, slug);
      assert NewlySettled(s, t, day) == {};
    } else if slug in s.sessions && s.sessions[slug].stage == Settling {
      SettleStep(cfg, s, slug, step.outcome);
      if slug in UnsettledOf(s, day) {
        assert NewlySettled(s, t, day) == {slug};
        WorseSumOut(s, {slug}, slug);
        assert {slug} - {slug} == {};
      } else {
        assert NewlySettled(s, t, day) == {};
      }
    } else {
      NoSettleStep(cfg, s, slug, step.outcome);
      assert NewlySettled(s, t, day) == {};
    }
  }

  lemma StakesTwice(s: System, n: System, t: System)
    requires SameStakes(s, n) && SameStakes(n, t)
    ensures SameStakes(s, t)
    ensures forall day :: UnsettledOf(t, day) <= UnsettledOf(n, day) <= UnsettledOf(s, day)
  {
  }

  lemma Joined(s: System, n: System, t: System, day: int)
    requires SameStakes(s, n) && SameStakes(n, t)
    requires n.accounts.Daily(day) >= s.accounts.Daily(day) + WorseSum(s, NewlySettled(s, n, day))
    requires t.accounts.Daily(day) >= n.accounts.Daily(day) + WorseSum(n, NewlySettled(n, t, day))
    ensures SameStakes(s, t)
    ensures t.accounts.Daily(day) >= s.accounts.Daily(day) + WorseSum(s, NewlySettled(s, t, day))
  {
    StakesTwice(s, n, t);
    Regrouped(s, n, UnsettledOf(s, day), UnsettledOf(n, day), UnsettledOf(t, day));
  }

  lemma Regrouped(s: System, n: System, x: set<string>, y: set<string>, z: set<string>)
    requires SameStakes(s, n) && z <= y <= x <= s.sessions.Keys
    ensures WorseSum(s, x - z) == WorseSum(s, x - y) + WorseSum(n, y - z)
  {
    forall slug | slug in y - z ensures Worse(s, slug) == Worse(n, slug) { SameWorse(s, n, slug); }
    WorseSumSame(s, n, y - z);
    assert x - z == (x - y) + (y - z);
    WorseSumUnion(s, x - y, y - z);
  }

  lemma {:induction false} WorseSumUnion(s: System, a: set<string>, b: set<string>)
    requires a + b <= s.sessions.Keys && a !! b
    ensures WorseSum(s, a + b) == WorseSum(s, a) + WorseSum(s, b)
    decreases a
  {
    if a == {} {
      assert a + b == b;
    } else {
      var slug :| slug in a;
      WorseSumOut(s, a, slug);
      WorseSumOut(s, a + b, slug);
      assert a + b - {slug} == (a - {slug}) + b;
      WorseSumUnion(s, a - {slug}, b);
    }
  }

  lemma RunTwoMore(cfg: Config, s: System, a: Step, b: Step, rest: seq<Step>)
    ensures Run(cfg, s, [a, b] + rest) == Run(cfg, Next(cfg, Next(cfg, s, a), b), rest)
  {
    assert ([a, b] + rest)[1..] == [b] + rest && ([b] + rest)[1..] == rest;
  }

  /** steps settle exactly the sessions slugs of the day, at their worse outcomes. */
  ghost predicate WorstRun(cfg: Config, s: System, steps: seq<Step>, slugs: set<string>, day: int)
    requires slugs <= s.sessions.Keys
  {
    var t := Run(cfg, s, steps);
    && OnlySettles(steps) && NewlySettled(s, t, day) == slugs
    && t.accounts.Daily(day) == s.accounts.Daily(day) + WorseSum(s, slugs)
  }

  /** And any set of the day's unsettled sessions can be settled at their worse outcomes. */
  lemma {:induction false} SettlesWorst(cfg: Config, s: System, slugs: set<string>, day: int) returns (steps: seq<Step>)
    requires TokensOk(s.sessions) && Indexed(s.core) && slugs <= UnsettledOf(s, day)
    ensures WorstRun(cfg, s, steps, slugs, day)
    decreases slugs
  {
    steps := [];
    if slugs == {} {
      assert NewlySettled(s, s, day) == {};
    } else {
      var slug :| slug in slugs;
      var n := Next(cfg, Next(cfg, s, CloseSession(slug)), SettleSession(slug, WorseOutcome(s, slug)));
      WorstOne(cfg, s, slug, day);
      var rest := SettlesWorst(cfg, n, slugs - {slug}, day);
      steps := [CloseSession(slug), SettleSession(slug, WorseOutcome(s, slug))] + rest;
      WorstFirst(cfg, s, n, slug, rest, slugs, day);
    }
  }

  lemma WorstFirst(cfg: Config, s: System, n: System, slug: string, rest: seq<Step>, slugs: set<string>, day: int)
    requires slug in slugs && slugs <= UnsettledOf(s, day) && SameStakes(s, n)
    requires n == Next(cfg, Next(cfg, s, CloseSession(slug)), SettleSession(slug, WorseOutcome(s, slug)))
    requires UnsettledOf(n, day) == UnsettledOf(s, day) - {slug} && WorstRun(cfg, n, rest, slugs - {slug}, day)
    requires n.accounts.Daily(day) == s.accounts.Daily(day) + Worse(s, slug)
    ensures WorstRun(cfg, s, [CloseSession(slug), SettleSession(slug, WorseOutcome(s, slug))] + rest, slugs, day)
  {
    var t := Run(cfg, n, rest);
    RunTwoMore(cfg, s, CloseSession(slug), SettleSession(slug, WorseOutcome(s, slug)), rest);
    WorseSumFirst(s, n, slug, slugs);
    NothingMore(cfg, n, rest, slug, day);
    SettledWith(UnsettledOf(s, day), UnsettledOf(n, day), UnsettledOf(t, day), slug, slugs);
  }

  lemma WorseSumFirst(s: System, n: System, slug: string, slugs: set<string>)
    requires slug in slugs && slugs <= s.sessions.Keys && SameStakes(s, n)
    ensures WorseSum(s, slugs) == Worse(s, slug) + WorseSum(n, slugs - {slug})
  {
    forall x | x in slugs - {slug} ensures Worse(s, x) == Worse(n, x) { SameWorse(s, n, x); }
    WorseSumSame(s, n, slugs - {slug});
    WorseSumOut(s, slugs, slug);
  }

  lemma SettledWith(x: set<string>, y: set<string>, z: set<string>, slug: string, slugs: set<string>)
    requires slug in slugs && slugs <= x && y == x - {slug} && y - z == slugs - {slug} && slug !in z
    ensures x - z == slugs
  {
    forall e ensures e in x - z <==> e in slugs {
      assert e in y - z <==> e in slugs - {slug};
    }
  }

  /** A session that is settled stays settled. */
  lemma NothingMore(cfg: Config, n: System, rest: seq<Step>, slug: string, day: int)
    requires TokensOk(n.sessions) && Indexed(n.core) && OnlySettles(rest) && slug !in UnsettledOf(n, day)
    ensures slug !in UnsettledOf(Run(cfg, n, rest), day)
  {
    SettlesAtLeast(cfg, n, rest, day);
  }

  lemma WorstOne(cfg: Config, s: System, slug: string, day: int)
    requires TokensOk(s.sessions) && Indexed(s.core) && slug in UnsettledOf(s, day)
    ensures var n := Next(cfg, Next(cfg, s, CloseSession(slug)), SettleSession(slug, WorseOutcome(s, slug)));
            && SameStakes(s, n) && UnsettledOf(n, day) == UnsettledOf(s, day) - {slug}
            && n.accounts.Daily(day) == s.accounts.Daily(day) + Worse(s, slug)
  {
    var c := Next(cfg, s, CloseSession(slug));
    CloseStep(cfg, s, slug);
    SameWorse(s, c, slug);
    SettleStep(cfg, c, slug, WorseOutcome(s, slug));
  }

  // ---- the exact condition

  /** Settling exactly these of the day's unsettled sessions can take the day to its limit if and only if the day's
      figure and the worse outcome of each are there already. */
  lemma SettlingThemIff(cfg: Config, s: System, slugs: set<string>, day: int)
    requires Bounded(cfg, s) && slugs <= UnsettledOf(s, day)
    ensures (exists steps ::
               && OnlySettles(steps) && NewlySettled(s, Run(cfg, s, steps), day) == slugs
               && Run(cfg, s, steps).accounts.Daily(day) <= -cfg.maxDailyLoss)
            <==> s.accounts.Daily(day) + WorseSum(s, slugs) <= -cfg.maxDailyLoss
  {
    var worst := SettlesWorst(cfg, s, slugs, day);
    forall steps | OnlySettles(steps) && NewlySettled(s, Run(cfg, s, steps), day) == slugs
      ensures Run(cfg, s, steps).accounts.Daily(day) >= s.accounts.Daily(day) + WorseSum(s, slugs)
    {
      SettlesAtLeast(cfg, s, steps, day);
    }
  }

  /** The unsettled sessions of the day that may still lose money. */
  ghost function Losers(s: System, day: int): set<string> {
    set slug | slug in UnsettledOf(s, day) && Worse(s, slug) < 0.0
  }

  lemma {:induction false} LosersAreWorst(s: System, slugs: set<string>, day: int)
    requires slugs <= UnsettledOf(s, day)
    ensures WorseSum(s, slugs) >= WorseSum(s, Losers(s, day))
  {
    var bad, good, kept := slugs * Losers(s, day), slugs - Losers(s, day), Losers(s, day) - slugs;
    assert slugs == bad + good && Losers(s, day) == bad + kept;
    WorseSumUnion(s, bad, good);
    WorseSumUnion(s, bad, kept);
    WorseSumSign(s, good, true);
    WorseSumSign(s, kept, false);
  }

  lemma {:induction false} WorseSumSign(s: System, slugs: set<string>, up: bool)
    requires slugs <= s.sessions.Keys
    requires forall slug <- slugs :: if up then Worse(s, slug) >= 0.0 else Worse(s, slug) < 0.0
    ensures if up then WorseSum(s, slugs) >= 0.0 else WorseSum(s, slugs) <= 0.0
    decreases slugs
  {
    if slugs != {} {
      var slug :| slug in slugs;
      WorseSumOut(s, slugs, slug);
      WorseSumSign(s, slugs - {slug}, up);
    }
  }

  /** The day's figure together with the losses its unsettled sessions may still bring. */
  ghost function WorstDay(s: System, day: int): real {
    s.accounts.Daily(day) + WorseSum(s, Losers(s, day))
  }

  /** Settling can take the day to its limit, sooner or later, if and only if its worst figure is there already. */
  lemma LossPossibleIff(cfg: Config, s: System, day: int)
    requires Bounded(cfg, s)
    ensures (exists steps :: OnlySettles(steps) && Run(cfg, s, steps).accounts.Daily(day) <= -cfg.maxDailyLoss)
            <==> WorstDay(s, day) <= -cfg.maxDailyLoss
  {
    var worst := SettlesWorst(cfg, s, Losers(s, day), day);
    forall steps | OnlySettles(steps) ensures Run(cfg, s, steps).accounts.Daily(day) >= WorstDay(s, day) {
      SettlesAtLeast(cfg, s, steps, day);
      LosersAreWorst(s, NewlySettled(s, Run(cfg, s, steps), day), day);
    }
  }

  // ---- when the gate is enough

  /** A window without a stake loses nothing, so with one window at stake the worst figure is that window's. */
  lemma OneLoser(cfg: Config, s: System, day: int)
    requires Bounded(cfg, s) && OneAtStake(s.sessions) && forall slug <- s.sessions :: s.sessions[slug].stake >= 0.0
    ensures forall a <- Losers(s, day), b <- Losers(s, day) :: a == b
    ensures forall slug <- Losers(s, day) :: Worse(s, slug) >= -s.sessions[slug].stake
  {
    forall slug | slug in s.sessions ensures Worse(s, slug) >= -s.sessions[slug].stake {
      SettlementAtLeast(cfg, s, slug, s.sessions[slug].meta.TokenFor(Up));
      SettlementAtLeast(cfg, s, slug, s.sessions[slug].meta.TokenFor(Down));
    }
    forall a, b | a in Losers(s, day) && b in Losers(s, day) ensures a == b {
      assert a != b ==> !Rivals(s.sessions[a], s.sessions[b]);
    }
  }

  /** One stake at a time: if at most one unsettled window of a day has money at stake, and the day would stay inside
      its limit without that stake, then no settlement takes it there. */
  lemma OneStakeSuffices(cfg: Config, s: System, day: int)
    requires Bounded(cfg, s) && OneAtStake(s.sessions) && InBudget(cfg, s.sessions, s.accounts)
    requires forall slug <- s.sessions :: s.sessions[slug].stake >= 0.0
    ensures WorstDay(s, day) > -cfg.maxDailyLoss
    ensures forall steps :: OnlySettles(steps) ==> Run(cfg, s, steps).accounts.Daily(day) > -cfg.maxDailyLoss
  {
    OneLoser(cfg, s, day);
    if slug :| slug in Losers(s, day) {
      WorseSumOut(s, Losers(s, day), slug);
      assert Losers(s, day) - {slug} == {};
    }
    LossPossibleIff(cfg, s, day);
  }

  // ---- the gate

  /** From s to t a session that had no position has bought p, and nothing else has changed for settlement. */
  ghost predicate FirstBuy(s: System, t: System, slug: string, p: Position) {
    && slug in s.sessions && TokensOk(s.sessions) && t.sessions.Keys == s.sessions.Keys
    && (forall x <- s.sessions :: t.sessions[x].meta == s.sessions[x].meta && t.sessions[x].stage == s.sessions[x].stage)
    && (forall x <- s.sessions :: x != slug ==> t.accounts.BookFor(x).positions == s.accounts.BookFor(x).positions)
    && t.accounts.daily == s.accounts.daily
    && s.accounts.BookFor(slug).positions == [] && t.accounts.BookFor(slug).positions == [p]
    && s.sessions[slug].Owns(p.token) && p.shares >= 0.0 && p.cash <= 0.0
  }

  /** What was paid is lost if the other token wins. */
  lemma BoughtWorse(s: System, t: System, slug: string, p: Position)
    requires FirstBuy(s, t, slug, p)
    ensures Worse(s, slug) == 0.0 && Worse(t, slug) == p.cash
  {
    var meta := s.sessions[slug].meta;
    assert meta.upToken != meta.downToken;
    assert [p][1..] == [];
    assert forall winner :: SettleTotal([p], winner) == Redeem(p, winner);
  }

  lemma OthersWorse(s: System, t: System, slug: string, p: Position, x: string)
    requires FirstBuy(s, t, slug, p) && x in s.sessions && x != slug
    ensures Worse(t, x) == Worse(s, x)
  {
  }

  lemma LosersAfter(s: System, t: System, slug: string, p: Position, day: int)
    requires FirstBuy(s, t, slug, p) && slug in UnsettledOf(s, day)
    ensures Losers(s, day) == Losers(t, day) - {slug} && (slug in Losers(t, day) <==> p.cash < 0.0)
  {
    BoughtWorse(s, t, slug, p);
    forall x | x in s.sessions && x != slug ensures x in Losers(t, day) <==> x in Losers(s, day) {
      OthersWorse(s, t, slug, p, x);
      assert x in UnsettledOf(t, day) <==> x in UnsettledOf(s, day);
    }
    assert slug in UnsettledOf(t, day);
  }

  lemma LosersSame(s: System, t: System, slug: string, p: Position, day: int)
    requires FirstBuy(s, t, slug, p) && slug !in Losers(s, day)
    ensures WorseSum(t, Losers(s, day)) == WorseSum(s, Losers(s, day))
  {
    forall x | x in Losers(s, day) ensures Worse(s, x) == Worse(t, x) { OthersWorse(s, t, slug, p, x); }
    WorseSumSame(s, t, Losers(s, day));
  }

  /** A first buy moves the day's worst figure by what was paid. */
  lemma BuyMovesWorst(s: System, t: System, slug: string, p: Position, day: int)
    requires FirstBuy(s, t, slug, p) && slug in UnsettledOf(s, day)
    ensures WorstDay(t, day) == WorstDay(s, day) + p.cash
  {
    BoughtWorse(s, t, slug, p);
    LosersAfter(s, t, slug, p, day);
    LosersSame(s, t, slug, p, day);
    if slug in Losers(t, day) {
      WorseSumOut(t, Losers(t, day), slug);
    } else {
      assert Losers(t, day) == Losers(s, day);
    }
  }

  /** What the budget gate would have to check before a first buy: with p.cash paid, settling can take the day to its
      limit if and only if the day's worst figure less the payment is there already. The gate takes the day's figure
      itself, which is the worst one exactly as long as no unsettled session of the day may lose money. */
  lemma GateIff(cfg: Config, s: System, t: System, slug: string, p: Position, day: int)
    requires Bounded(cfg, t) && FirstBuy(s, t, slug, p) && slug in UnsettledOf(s, day)
    ensures (exists steps :: OnlySettles(steps) && Run(cfg, t, steps).accounts.Daily(day) <= -cfg.maxDailyLoss)
            <==> WorstDay(s, day) + p.cash <= -cfg.maxDailyLoss
    ensures WorstDay(s, day) == s.accounts.Daily(day) <==> Losers(s, day) == {}
  {
    BuyMovesWorst(s, t, slug, p, day);
    LossPossibleIff(cfg, t, day);
    if x :| x in Losers(s, day) {
      WorseSumOut(s, Losers(s, day), x);
      WorseSumSign(s, Losers(s, day) - {x}, false);
    }
  }
}
