/** The daily loss budget of the sniper: each day's realised result stays above the loss limit, if the boundaries of
    the windows that have traded are captured before it shoots again. */
module DeskBudget {
  import opened Grid
  import opened Orders
  import opened Books
  import opened Exchange
  import opened CoreBounds
  import opened Ledger
  import opened Risk
  import opened KCapture
  import Sessions
  import Rollover
  import RolloverOrder
  import opened RolloverSteps
  import opened Sniper
  import opened Trading
  import opened TradingBase
  import opened DailyBudget
  import opened WorstCase
  import opened SniperDesk

  // ---- windows and slugs

  lemma SameSlug(su: Setup, a: int, b: int)
    requires SetupOk(su)
    ensures su.SlugOf(a) == su.SlugOf(b) <==> a == b
  {
    if a != b { assert Apart(su.metaOf(a), su.metaOf(b)); }
  }

  lemma SessionsWindow(su: Setup, ss: map<string, Session>, r: Rollover.Roll, ws: int)
    requires SetupOk(su) && Linked(su, ss, r) && su.SlugOf(ws) in ss
    ensures ss[su.SlugOf(ws)].meta == su.metaOf(ws) && ss[su.SlugOf(ws)].meta.windowStart == ws
  {
    var sess := ss[su.SlugOf(ws)];
    assert MetaOk(su.cfg, ws, su.metaOf(ws));
    SameSlug(su, sess.meta.windowStart, ws);
  }

  lemma QuietFits(sess: Session, w: Sessions.Window, x: Sessions.Window, concerned: bool)
    requires Fits(sess, w) && Turned(w, x, concerned) && Quiet(w, x)
    ensures Fits(sess, x)
  {
  }

  /** Trading sessions that keep up with one step of the rollover. */
  ghost predicate KeepsUp(su: Setup, ss: map<string, Session>, ts: map<string, Session>, r: Rollover.Roll, q: Rollover.Roll) {
    && (forall slug <- ts :: ts[slug].meta == su.metaOf(ts[slug].meta.windowStart) && ts[slug].meta.slug == slug)
    && (forall slug <- ss :: slug in ts && ts[slug].meta == ss[slug].meta)
    && (forall slug <- ss :: ts[slug] == ss[slug] || Started(r, ss[slug].meta.windowStart))
    && (forall slug <- ts :: slug in ss || (ts[slug].stage == Open && ts[slug].stake == 0.0))
    && (forall id <- r.wasCurrent :: id < |r.windows| && id < |q.windows| && su.SlugOf(r.windows[id].start) in ts
                                     && Fits(ts[su.SlugOf(r.windows[id].start)], q.windows[id]))
    && (|q.windows| > |r.windows| ==> su.SlugOf(q.windows[|r.windows|].start) in ts)
  }

  lemma StartedStays(r: Rollover.Roll, q: Rollover.Roll, c: Option<nat>, ws: int)
    requires Grew(r, q) && AllTurned(r, q, c) && Started(r, ws)
    ensures Started(q, ws)
  {
    var id :| id in r.wasCurrent && id < |r.windows| && r.windows[id].start == ws;
    assert Turned(r.windows[id], q.windows[id], c == Some(id));
    assert id in q.wasCurrent;
  }

  lemma WindowsListed(su: Setup, ss: map<string, Session>, ts: map<string, Session>, r: Rollover.Roll, q: Rollover.Roll, c: Option<nat>)
    requires Linked(su, ss, r) && Grew(r, q) && AllTurned(r, q, c) && KeepsUp(su, ss, ts, r, q)
    ensures forall w <- q.windows :: su.SlugOf(w.start) in ts
  {
    forall i | 0 <= i < |q.windows| ensures su.SlugOf(q.windows[i].start) in ts {
      if i < |r.windows| {
        assert r.windows[i] in r.windows && Turned(r.windows[i], q.windows[i], c == Some(i));
      }
    }
  }

  /** The session of a window that becomes current for the first time is open and has no stake. */
  lemma NewcomerFits(su: Setup, ss: map<string, Session>, ts: map<string, Session>, r: Rollover.Roll, q: Rollover.Roll, c: Option<nat>)
    requires SetupOk(su) && Linked(su, ss, r) && Grew(r, q) && AllTurned(r, q, c) && KeepsUp(su, ss, ts, r, q)
    requires Installed(r, q)
    ensures var w := q.windows[q.current.value]; su.SlugOf(w.start) in ts && Fits(ts[su.SlugOf(w.start)], w)
  {
    var w := q.windows[q.current.value];
    var slug := su.SlugOf(w.start);
    WindowsListed(su, ss, ts, r, q, c);
    assert w in q.windows;
    forall id | id in r.wasCurrent ensures r.windows[id].start != w.start {
      assert Turned(r.windows[id], q.windows[id], c == Some(id));
    }
    if slug in ss { SessionsWindow(su, ss, r, w.start); }
  }

  lemma KeepsLinked(su: Setup, ss: map<string, Session>, ts: map<string, Session>, r: Rollover.Roll, q: Rollover.Roll, c: Option<nat>)
    requires SetupOk(su) && Linked(su, ss, r) && Grew(r, q) && AllTurned(r, q, c) && KeepsUp(su, ss, ts, r, q)
    ensures Linked(su, ts, q)
  {
    WindowsListed(su, ss, ts, r, q, c);
    forall id | id in q.wasCurrent
      ensures id < |q.windows| && su.SlugOf(q.windows[id].start) in ts && Fits(ts[su.SlugOf(q.windows[id].start)], q.windows[id])
    {
      if id in r.wasCurrent {
        assert Turned(r.windows[id], q.windows[id], c == Some(id));
      } else {
        NewcomerFits(su, ss, ts, r, q, c);
      }
    }
    forall slug | slug in ts && !Started(q, ts[slug].meta.windowStart) ensures ts[slug].stage == Open && ts[slug].stake == 0.0 {
      if slug in ss && Started(r, ss[slug].meta.windowStart) { StartedStays(r, q, c, ss[slug].meta.windowStart); }
    }
  }

  // ---- the rollover

  lemma ConcernedWasCurrent(t: Rollover.Timing, r: Rollover.Roll, step: Rollover.Step)
    requires t.length > 0 && Rollover.Inv(t, r)
    ensures Concerned(t, r, step).Some? ==> Concerned(t, r, step).value in r.wasCurrent
  {
  }

  /** Nobody has to hear of the step. */
  lemma QuietKeepsUp(su: Setup, ss: map<string, Session>, r: Rollover.Roll, q: Rollover.Roll, c: Option<nat>)
    requires Linked(su, ss, r) && AllTurned(r, q, c)
    requires c.Some? && c.value < |r.windows| ==> Quiet(r.windows[c.value], q.windows[c.value])
    requires |q.windows| > |r.windows| ==> su.SlugOf(q.windows[|r.windows|].start) in ss
    ensures KeepsUp(su, ss, ss, r, q)
  {
    forall id | id in r.wasCurrent ensures id < |q.windows| && Fits(ss[su.SlugOf(r.windows[id].start)], q.windows[id]) {
      assert Turned(r.windows[id], q.windows[id], c == Some(id));
      QuietFits(ss[su.SlugOf(r.windows[id].start)], r.windows[id], q.windows[id], c == Some(id));
    }
  }

  lemma StagedFits(su: Setup, ss: map<string, Session>, r: Rollover.Roll, q: Rollover.Roll, id: nat, stage: Stage, i: nat)
    requires SetupOk(su) && Linked(su, ss, r) && AllTurned(r, q, Some(id)) && |q.windows| == |r.windows|
    requires id in r.wasCurrent && i in r.wasCurrent && StageFits(stage, q.windows[id])
    requires i != id ==> r.windows[i].start != r.windows[id].start
    ensures su.SlugOf(r.windows[id].start) in ss && su.SlugOf(r.windows[i].start) in ss
    ensures var slug := su.SlugOf(r.windows[id].start);
            Fits(ss[slug := ss[slug].(stage := stage)][su.SlugOf(r.windows[i].start)], q.windows[i])
  {
    assert Turned(r.windows[i], q.windows[i], Some(id) == Some(i));
    SameSlug(su, r.windows[i].start, r.windows[id].start);
    if i != id { QuietFits(ss[su.SlugOf(r.windows[i].start)], r.windows[i], q.windows[i], false); }
  }

  /** One session moves on to the stage its window has reached. */
  lemma StagedKeepsUp(su: Setup, ss: map<string, Session>, r: Rollover.Roll, q: Rollover.Roll, id: nat, stage: Stage)
    requires SetupOk(su) && Linked(su, ss, r) && AllTurned(r, q, Some(id)) && |q.windows| == |r.windows|
    requires id in r.wasCurrent && StageFits(stage, q.windows[id])
    requires forall i <- r.wasCurrent, j <- r.wasCurrent :: i != j ==> r.windows[i].start != r.windows[j].start
    ensures var slug := su.SlugOf(r.windows[id].start);
            slug in ss && KeepsUp(su, ss, ss[slug := ss[slug].(stage := stage)], r, q)
  {
    SessionsWindow(su, ss, r, r.windows[id].start);
    forall i | i in r.wasCurrent
      ensures i < |q.windows| && su.SlugOf(r.windows[i].start) in ss
      ensures var slug := su.SlugOf(r.windows[id].start);
              Fits(ss[slug := ss[slug].(stage := stage)][su.SlugOf(r.windows[i].start)], q.windows[i])
    {
      StagedFits(su, ss, r, q, id, stage, i);
    }
  }

  lemma OpenedKeepsUp(su: Setup, ss: map<string, Session>, r: Rollover.Roll, q: Rollover.Roll)
    requires SetupOk(su) && Linked(su, ss, r) && AllTurned(r, q, None) && |q.windows| > |r.windows|
    requires su.SlugOf(q.windows[|r.windows|].start) !in ss
    ensures var meta := su.metaOf(q.windows[|r.windows|].start);
            KeepsUp(su, ss, ss[meta.slug := Session(meta, 0.0, Open)], r, q)
  {
    var ws := q.windows[|r.windows|].start;
    assert MetaOk(su.cfg, ws, su.metaOf(ws));
    forall id | id in r.wasCurrent ensures id < |q.windows| && Fits(ss[su.SlugOf(r.windows[id].start)], q.windows[id]) {
      assert Turned(r.windows[id], q.windows[id], None == Some(id));
      QuietFits(ss[su.SlugOf(r.windows[id].start)], r.windows[id], q.windows[id], false);
    }
  }

  /** The trading sessions after one step of the rollover are linked to its sessions again. */
  lemma RollingLinked(su: Setup, s: System, r: Rollover.Roll, step: Rollover.Step)
    requires SetupOk(su) && Indexed(s.core) && Linked(su, s.sessions, r)
    requires Rollover.Inv(su.Timing(), r) && Rollover.Lawful(su.Timing(), r, step)
    ensures var q := Rollover.Next(su.Timing(), r, step);
            Linked(su, Acted(su.cfg, s, Echo(su, s.sessions, r, q, step)).sessions, q)
  {
    var t, ss := su.Timing(), s.sessions;
    var q, c := Rollover.Next(t, r, step), Concerned(t, r, step);
    StepGrew(t, r, step);
    ConcernedWasCurrent(t, r, step);
    if c.Some? {
      EchoIs(su, ss, r, q, step, c.value);
      ConcernedKeepsUp(su, s, r, q, Echo(su, ss, r, q, step), c.value);
    } else {
      NewcomerKeepsUp(su, s, r, q, step);
    }
    KeepsLinked(su, ss, Acted(su.cfg, s, Echo(su, ss, r, q, step)).sessions, r, q, c);
  }

  /** A step that concerns no session opens one, or nobody has to hear of it. */
  lemma NewcomerKeepsUp(su: Setup, s: System, r: Rollover.Roll, q: Rollover.Roll, step: Rollover.Step)
    requires SetupOk(su) && Indexed(s.core) && Linked(su, s.sessions, r)
    requires Concerned(su.Timing(), r, step).None? && AllTurned(r, q, None)
    ensures KeepsUp(su, s.sessions, Acted(su.cfg, s, Echo(su, s.sessions, r, q, step)).sessions, r, q)
  {
    if |q.windows| > |r.windows| && su.SlugOf(q.windows[|r.windows|].start) !in s.sessions {
      OpenedKeepsUp(su, s.sessions, r, q);
      OpenedNext(su.cfg, s, su.metaOf(q.windows[|r.windows|].start));
    } else {
      QuietKeepsUp(su, s.sessions, r, q, None);
    }
  }

  lemma OpenedNext(cfg: Config, s: System, meta: Meta)
    requires Indexed(s.core)
    ensures Next(cfg, s, OpenSession(meta)).sessions == s.sessions[meta.slug := Session(meta, 0.0, Open)]
  {
  }

  lemma StagedNext(cfg: Config, s: System, slug: string, outcome: Outcome)
    requires Indexed(s.core) && slug in s.sessions
    ensures s.sessions[slug].stage == Open ==>
              Next(cfg, s, CloseSession(slug)).sessions == s.sessions[slug := s.sessions[slug].(stage := Settling)]
    ensures s.sessions[slug].stage == Settling ==>
              Next(cfg, s, SettleSession(slug, outcome)).sessions == s.sessions[slug := s.sessions[slug].(stage := Done(outcome))]
  {
  }

  lemma CloseKeepsUp(su: Setup, s: System, r: Rollover.Roll, q: Rollover.Roll, id: nat)
    requires SetupOk(su) && Indexed(s.core) && Linked(su, s.sessions, r) && |q.windows| == |r.windows|
    requires forall i <- r.wasCurrent, j <- r.wasCurrent :: i != j ==> r.windows[i].start != r.windows[j].start
    requires id in r.wasCurrent && AllTurned(r, q, Some(id)) && Closes(r.windows[id], q.windows[id])
    ensures KeepsUp(su, s.sessions, Next(su.cfg, s, CloseSession(su.SlugOf(r.windows[id].start))).sessions, r, q)
  {
    assert Fits(s.sessions[su.SlugOf(r.windows[id].start)], r.windows[id]);
    StagedKeepsUp(su, s.sessions, r, q, id, Settling);
    StagedNext(su.cfg, s, su.SlugOf(r.windows[id].start), Up);
  }

  lemma SettleKeepsUp(su: Setup, s: System, r: Rollover.Roll, q: Rollover.Roll, id: nat)
    requires SetupOk(su) && Indexed(s.core) && Linked(su, s.sessions, r) && |q.windows| == |r.windows|
    requires forall i <- r.wasCurrent, j <- r.wasCurrent :: i != j ==> r.windows[i].start != r.windows[j].start
    requires id in r.wasCurrent && AllTurned(r, q, Some(id)) && Settles(r.windows[id], q.windows[id])
    ensures KeepsUp(su, s.sessions,
                    Next(su.cfg, s, SettleSession(su.SlugOf(r.windows[id].start), q.windows[id].outcome.value)).sessions, r, q)
  {
    assert Fits(s.sessions[su.SlugOf(r.windows[id].start)], r.windows[id]);
    StagedKeepsUp(su, s.sessions, r, q, id, Done(q.windows[id].outcome.value));
    StagedNext(su.cfg, s, su.SlugOf(r.windows[id].start), q.windows[id].outcome.value);
  }

  /** What the trader hears of a session that goes from w to x. */
  predicate EchoOf(su: Setup, w: Sessions.Window, x: Sessions.Window, act: Option<Step>) {
    && (Closes(w, x) ==> act == Some(CloseSession(su.SlugOf(w.start))))
    && (Settles(w, x) ==> act == Some(SettleSession(su.SlugOf(w.start), x.outcome.value)))
    && (!Closes(w, x) && !Settles(w, x) ==> act == None)
  }

  lemma EchoIs(su: Setup, ss: map<string, Session>, r: Rollover.Roll, q: Rollover.Roll, step: Rollover.Step, id: nat)
    requires su.cfg.windowLength > 0 && Concerned(su.Timing(), r, step) == Some(id) && id < |r.windows| == |q.windows|
    ensures EchoOf(su, r.windows[id], q.windows[id], Echo(su, ss, r, q, step))
  {
  }

  lemma ConcernedKeepsUp(su: Setup, s: System, r: Rollover.Roll, q: Rollover.Roll, act: Option<Step>, id: nat)
    requires SetupOk(su) && Indexed(s.core) && Linked(su, s.sessions, r) && |q.windows| == |r.windows|
    requires forall i <- r.wasCurrent, j <- r.wasCurrent :: i != j ==> r.windows[i].start != r.windows[j].start
    requires id in r.wasCurrent && AllTurned(r, q, Some(id)) && EchoOf(su, r.windows[id], q.windows[id], act)
    ensures KeepsUp(su, s.sessions, Acted(su.cfg, s, act).sessions, r, q)
  {
    assert Turned(r.windows[id], q.windows[id], Some(id) == Some(id));
    if Closes(r.windows[id], q.windows[id]) {
      CloseKeepsUp(su, s, r, q, id);
    } else if Settles(r.windows[id], q.windows[id]) {
      SettleKeepsUp(su, s, r, q, id);
    } else {
      QuietKeepsUp(su, s.sessions, r, q, Some(id));
    }
  }

  /** A window that is opened has its own slug and tokens. */
  lemma OpensFairly(su: Setup, s: System, r: Rollover.Roll, q: Rollover.Roll)
    requires SetupOk(su) && Linked(su, s.sessions, r) && |q.windows| > |r.windows|
    requires su.SlugOf(q.windows[|r.windows|].start) !in s.sessions
    ensures Fair(s, OpenSession(su.metaOf(q.windows[|r.windows|].start)))
  {
    var ws := q.windows[|r.windows|].start;
    var meta := su.metaOf(ws);
    assert MetaOk(su.cfg, ws, meta);
    forall slug | slug in s.sessions ensures !s.sessions[slug].Owns(meta.upToken) && !s.sessions[slug].Owns(meta.downToken) {
      assert Apart(su.metaOf(s.sessions[slug].meta.windowStart), meta);
    }
  }

  lemma OpensAligned(su: Setup, q: Rollover.Roll, i: nat)
    requires SetupOk(su) && Rollover.WindowsOk(su.Timing(), q) && i < |q.windows|
    ensures Aligned(su.cfg, su.metaOf(q.windows[i].start))
  {
    assert q.windows[i] in q.windows && MetaOk(su.cfg, q.windows[i].start, su.metaOf(q.windows[i].start));
  }

  lemma EchoFair(su: Setup, s: System, r: Rollover.Roll, q: Rollover.Roll, step: Rollover.Step, fired: set<string>)
    requires SetupOk(su) && Linked(su, s.sessions, r) && Rollover.WindowsOk(su.Timing(), q)
    ensures var act := Echo(su, s.sessions, r, q, step);
            act.Some? ==> !act.value.Intend? && Fair(s, act.value) && OneShotStep(su.cfg, s, act.value, fired)
  {
    var act := Echo(su, s.sessions, r, q, step);
    if act.Some? && act.value.OpenSession? {
      OpensFairly(su, s, r, q);
      OpensAligned(su, q, |r.windows|);
    }
  }

  lemma ActBudget(cfg: Config, s: System, act: Option<Step>, fired: set<string>)
    requires Bounded(cfg, s) && Budgeted(cfg, s.sessions, s.accounts, fired) && cfg.maxStakePerWindow >= 0.0
    requires act.Some? ==> Fair(s, act.value) && OneShotStep(cfg, s, act.value, fired)
    ensures var after, more := Acted(cfg, s, act), if act.Some? then Shots(act.value, fired) else fired;
            Bounded(cfg, after) && Budgeted(cfg, after.sessions, after.accounts, more)
  {
    if act.Some? {
      StepBounded(cfg, s, act.value);
      StepBudget(cfg, s, act.value, fired);
    }
  }

  lemma RollingBounded(su: Setup, s: System, r: Rollover.Roll, step: Rollover.Step)
    requires SetupOk(su) && Bounded(su.cfg, s) && Linked(su, s.sessions, r)
    requires Rollover.WindowsOk(su.Timing(), Rollover.Next(su.Timing(), r, step))
    ensures var q := Rollover.Next(su.Timing(), r, step);
            Bounded(su.cfg, Acted(su.cfg, s, Echo(su, s.sessions, r, q, step)))
  {
    var act := Echo(su, s.sessions, r, Rollover.Next(su.Timing(), r, step), step);
    EchoFair(su, s, r, Rollover.Next(su.Timing(), r, step), step, {});
    if act.Some? { StepBounded(su.cfg, s, act.value); }
  }

  /** Whatever the rollover asks for keeps the budget. */
  lemma RollingBudget(su: Setup, s: System, r: Rollover.Roll, step: Rollover.Step, fired: set<string>)
    requires SetupOk(su) && Bounded(su.cfg, s) && Linked(su, s.sessions, r) && Budgeted(su.cfg, s.sessions, s.accounts, fired)
    requires Rollover.WindowsOk(su.Timing(), Rollover.Next(su.Timing(), r, step))
    ensures var q := Rollover.Next(su.Timing(), r, step);
            var after := Acted(su.cfg, s, Echo(su, s.sessions, r, q, step));
            Bounded(su.cfg, after) && Budgeted(su.cfg, after.sessions, after.accounts, fired)
  {
    var q := Rollover.Next(su.Timing(), r, step);
    EchoFair(su, s, r, q, step, fired);
    ActBudget(su.cfg, s, Echo(su, s.sessions, r, q, step), fired);
  }

  // ---- an evaluation

  /** A shot is a buy at a price on the tick grid, in a window whose Price to Beat is known. */
  lemma ShotMeans(su: Setup, d: Desk, r: Reading)
    requires MarketFair(d.sys.market) && Evaluates(su, d) && VerdictOf(su, d, r).Fire?
    ensures var i := VerdictOf(su, d, r).intent;
            && i.side == Buy && i.size > 0.0 && OnTick(i.price) && i.price >= 0.0
            && CurrentWindow(su, d).k.Some? && LookOf(su, d, r).fires
            && LookOf(su, d, r).ws !in Watch(d.looks).fired
  {
    var s := SightOf(su, d, r);
    var i := VerdictOf(su, d, r).intent;
    ShotsAreAtTheTouch(su.mode, su.cfg, s);
    var book := d.sys.market.books[if i.outcome == Up then s.meta.upToken else s.meta.downToken];
    BestIsExtreme(Sell, book.asks);
  }

  /** Evaluations go forward, so the windows shot in are all different. */
  lemma LooksGrow(su: Setup, d: Desk, l: Look)
    requires Ordered(d.roll) && LooksOk(d.roll, d.looks)
    requires d.roll.current.Some? && l.ws == d.roll.windows[d.roll.current.value].start
    ensures LooksOk(d.roll, d.looks + [l])
  {
    var looks := d.looks + [l];
    forall i | 0 <= i < |d.looks| ensures d.looks[i].ws <= l.ws {
      assert d.looks[i] in d.looks;
      var id :| id in d.roll.wasCurrent && id < |d.roll.windows| && d.roll.windows[id].start == d.looks[i].ws;
      if id != d.roll.current.value { assert d.roll.windows[id].start < l.ws; }
    }
    assert Started(d.roll, l.ws);
  }

  /** The memory keeps the sniper from shooting twice in a window, despite the pruning. */
  lemma ShotIsFirst(su: Setup, looks: seq<Look>, l: Look)
    requires SetupOk(su) && Forward(looks + [l]) && l.fires && l.ws !in Watch(looks).fired
    ensures su.SlugOf(l.ws) !in ShotSlugs(su, looks)
    ensures ShotSlugs(su, looks + [l]) == ShotSlugs(su, looks) + {su.SlugOf(l.ws)}
  {
    var shots := Watch(looks).shots;
    assert (looks + [l])[..|looks|] == looks;
    assert Watch(looks + [l]).shots == shots + [l.ws];
    OneShotPerWindow(looks + [l]);
    forall ws | ws in shots ensures su.SlugOf(ws) != su.SlugOf(l.ws) {
      var k :| 0 <= k < |shots| && shots[k] == ws;
      assert (shots + [l.ws])[k] < (shots + [l.ws])[|shots|];
      SameSlug(su, ws, l.ws);
    }
    assert forall ws :: ws in shots + [l.ws] <==> ws in shots || ws == l.ws;
  }

  lemma NoShotNoSlug(su: Setup, looks: seq<Look>, l: Look)
    requires !(l.fires && l.ws !in Watch(looks).fired)
    ensures ShotSlugs(su, looks + [l]) == ShotSlugs(su, looks)
  {
    assert (looks + [l])[..|looks|] == looks;
  }

  /** A window with a stake has been current, and had its Price to Beat. */
  lemma StakedWindow(su: Setup, ss: map<string, Session>, r: Rollover.Roll, slug: string) returns (id: nat)
    requires Linked(su, ss, r) && slug in ss && ss[slug].stake > 0.0
    ensures id in r.wasCurrent && id < |r.windows| && r.windows[id].start == ss[slug].meta.windowStart
    ensures Fits(ss[slug], r.windows[id])
  {
    var ws := ss[slug].meta.windowStart;
    assert Started(r, ws);
    id :| id in r.wasCurrent && id < |r.windows| && r.windows[id].start == ws;
    assert su.SlugOf(ws) == slug;
  }

  /** A window that has traded, and whose closing boundary has been captured, is settled, unless it is current. */
  lemma CapturedIsSettled(su: Setup, ss: map<string, Session>, r: Rollover.Roll, slug: string)
    requires SetupOk(su) && Linked(su, ss, r) && slug in ss && ss[slug].stake > 0.0
    requires Rollover.PastOk(su.Timing(), r) && Rollover.WindowsOk(su.Timing(), r)
    requires ss[slug].meta.windowClose in Seen(r.prints, su.cfg.windowLength)
    requires forall id <- r.wasCurrent :: r.current == Some(id) ==> r.windows[id].start != ss[slug].meta.windowStart
    ensures !Unsettled(ss[slug])
  {
    var id := StakedWindow(su, ss, r, slug);
    WindowClose(su, ss, r, slug, id);
    assert Rollover.Handed(su.Timing(), r, id);
  }

  lemma WindowClose(su: Setup, ss: map<string, Session>, r: Rollover.Roll, slug: string, id: nat)
    requires SetupOk(su) && Linked(su, ss, r) && slug in ss && Rollover.WindowsOk(su.Timing(), r)
    requires id < |r.windows| && r.windows[id].start == ss[slug].meta.windowStart
    ensures r.windows[id].close == ss[slug].meta.windowClose
  {
    var ws := ss[slug].meta.windowStart;
    assert MetaOk(su.cfg, ws, su.metaOf(ws)) && r.windows[id] in r.windows;
  }

  /** When the sniper shoots, the window that closed at this one's opening is settled if it has traded: the print that
      gave this window its Price to Beat has settled it. */
  lemma NeighbourSettled(su: Setup, d: Desk, r: Reading, slug: string)
    requires SetupOk(su) && DeskOk(su, d) && Shot(su, d, r).Some?
    requires slug in d.sys.sessions && d.sys.sessions[slug].stake > 0.0
    requires d.sys.sessions[slug].meta.windowClose == CurrentWindow(su, d).start
    ensures !Unsettled(d.sys.sessions[slug])
  {
    var w, meta := CurrentWindow(su, d), d.sys.sessions[slug].meta;
    ShotMeans(su, d, r);
    assert w in d.roll.windows && MetaOk(su.cfg, meta.windowStart, su.metaOf(meta.windowStart));
    CapturedIsSettled(su, d.sys.sessions, d.roll, slug);
  }

  lemma CapturedOthers(su: Setup, d: Desk)
    requires SetupOk(su) && DeskInv(su, d) && Evaluates(su, d) && BoundariesCaptured(su, d)
    ensures OthersSettled(d.sys.sessions, su.SlugOf(CurrentWindow(su, d).start))
  {
    var ss, ws := d.sys.sessions, CurrentWindow(su, d).start;
    var slug := su.SlugOf(ws);
    if slug in ss {
      SessionsWindow(su, ss, d.roll, ws);
      forall other | other in ss && other != slug && SessionDay(ss[other]) == SessionDay(ss[slug]) && Unsettled(ss[other])
        ensures ss[other].stake == 0.0
      {
        assert ss[other].meta == su.metaOf(ss[other].meta.windowStart) && ss[other].meta.slug == other;
        if ss[other].stake > 0.0 { CapturedIsSettled(su, ss, d.roll, other); }
      }
    }
  }

  /** A shot keeps the budget. */
  lemma ShotBudget(su: Setup, d: Desk, r: Reading)
    requires SetupOk(su) && DeskInv(su, d) && Shot(su, d, r).Some? && BoundariesCaptured(su, d)
    requires Forward(d.looks + [LookOf(su, d, r)])
    ensures var after := Acted(su.cfg, d.sys, Shot(su, d, r));
            && Bounded(su.cfg, after)
            && Budgeted(su.cfg, after.sessions, after.accounts, ShotSlugs(su, d.looks + [LookOf(su, d, r)]))
  {
    var ws := CurrentWindow(su, d).start;
    assert MetaOk(su.cfg, ws, su.metaOf(ws));
    ShotMeans(su, d, r);
    CapturedOthers(su, d);
    ShotIsFirst(su, d.looks, LookOf(su, d, r));
    ActBudget(su.cfg, d.sys, Shot(su, d, r), ShotSlugs(su, d.looks));
  }

  /** A larger stake in a window whose Price to Beat is known. */
  lemma StakeLinked(su: Setup, ss: map<string, Session>, r: Rollover.Roll, id: nat, stake: real)
    requires SetupOk(su) && Linked(su, ss, r) && id in r.wasCurrent && r.windows[id].k.Some?
    requires forall i <- r.wasCurrent, j <- r.wasCurrent :: i != j ==> r.windows[i].start != r.windows[j].start
    ensures var slug := su.SlugOf(r.windows[id].start);
            slug in ss && Linked(su, ss[slug := ss[slug].(stake := stake)], r)
  {
    var ws := r.windows[id].start;
    var ts := ss[su.SlugOf(ws) := ss[su.SlugOf(ws)].(stake := stake)];
    SessionsWindow(su, ss, r, ws);
    assert Started(r, ws);
    forall i | i in r.wasCurrent ensures Fits(ts[su.SlugOf(r.windows[i].start)], r.windows[i]) {
      SameSlug(su, r.windows[i].start, ws);
      assert Fits(ss[su.SlugOf(r.windows[i].start)], r.windows[i]) && Fits(ss[su.SlugOf(ws)], r.windows[id]);
    }
  }

  lemma IntendedSessions(cfg: Config, s: System, slug: string, i: Intent, v: View)
    requires i.side == Buy && slug in s.sessions
    ensures var ts := Next(cfg, s, Intend(slug, i, v)).sessions;
            ts == s.sessions || ts == s.sessions[slug := s.sessions[slug].(stake := s.sessions[slug].stake + Stake(i))]
  {
  }

  lemma ShotLinked(su: Setup, d: Desk, r: Reading)
    requires SetupOk(su) && Ordered(d.roll) && Linked(su, d.sys.sessions, d.roll) && Shot(su, d, r).Some?
    requires CurrentWindow(su, d).k.Some? && VerdictOf(su, d, r).intent.side == Buy
    requires forall i <- d.roll.wasCurrent, j <- d.roll.wasCurrent ::
               i != j ==> d.roll.windows[i].start != d.roll.windows[j].start
    ensures Linked(su, Acted(su.cfg, d.sys, Shot(su, d, r)).sessions, d.roll)
  {
    var i, id := VerdictOf(su, d, r).intent, d.roll.current.value;
    var slug := su.SlugOf(d.roll.windows[id].start);
    StakeLinked(su, d.sys.sessions, d.roll, id, d.sys.sessions[slug].stake + Stake(i));
    IntendedSessions(su.cfg, d.sys, slug, i, ViewOf(su, d, r, i.outcome));
  }

  lemma ShotBounded(su: Setup, d: Desk, r: Reading)
    requires SetupOk(su) && Bounded(su.cfg, d.sys) && Shot(su, d, r).Some?
    ensures Bounded(su.cfg, Acted(su.cfg, d.sys, Shot(su, d, r)))
  {
    ShotMeans(su, d, r);
    StepBounded(su.cfg, d.sys, Shot(su, d, r).value);
  }

  lemma LookingOk(su: Setup, d: Desk, r: Reading)
    requires SetupOk(su) && DeskOk(su, d) && Evaluates(su, d)
    ensures DeskOk(su, After(su, d, Looking(r)))
  {
    LooksGrow(su, d, LookOf(su, d, r));
    if Shot(su, d, r).Some? {
      ShotMeans(su, d, r);
      ShotBounded(su, d, r);
      ShotLinked(su, d, r);
    }
  }

  lemma LookingBudget(su: Setup, d: Desk, r: Reading)
    requires SetupOk(su) && DeskInv(su, d) && InOrder(su, d, Looking(r)) && Evaluates(su, d)
    ensures var q := After(su, d, Looking(r)); Budgeted(su.cfg, q.sys.sessions, q.sys.accounts, ShotSlugs(su, q.looks))
  {
    var l := LookOf(su, d, r);
    LooksGrow(su, d, l);
    if Shot(su, d, r).Some? { ShotBudget(su, d, r); } else { NoShotNoSlug(su, d.looks, l); }
  }

  // ---- the other events

  lemma LooksStay(r: Rollover.Roll, q: Rollover.Roll, c: Option<nat>, looks: seq<Look>)
    requires LooksOk(r, looks) && Grew(r, q) && AllTurned(r, q, c)
    ensures LooksOk(q, looks)
  {
    forall l | l in looks ensures Started(q, l.ws) { StartedStays(r, q, c, l.ws); }
  }

  lemma RollingOk(su: Setup, d: Desk, step: Rollover.Step)
    requires SetupOk(su) && DeskOk(su, d) && Rollover.Lawful(su.Timing(), d.roll, step)
    ensures DeskOk(su, After(su, d, Rolling(step)))
  {
    var t := su.Timing();
    var q, c := Rollover.Next(t, d.roll, step), Concerned(t, d.roll, step);
    RolloverOrder.StepInv(t, d.roll, step);
    StepGrew(t, d.roll, step);
    GrewOrdered(d.roll, q, c);
    LooksStay(d.roll, q, c, d.looks);
    RollingLinked(su, d.sys, d.roll, step);
    RollingBounded(su, d.sys, d.roll, step);
  }

  lemma RollingInv(su: Setup, d: Desk, step: Rollover.Step)
    requires SetupOk(su) && DeskInv(su, d) && Rollover.Lawful(su.Timing(), d.roll, step)
    ensures DeskInv(su, After(su, d, Rolling(step)))
  {
    RollingOk(su, d, step);
    RollingBudget(su, d.sys, d.roll, step, ShotSlugs(su, d.looks));
  }

  lemma OutsideSame(cfg: Config, s: System, act: Step)
    requires OutsideStep(act)
    ensures Next(cfg, s, act).sessions == s.sessions && (forall fired :: Shots(act, fired) == fired)
    ensures Fair(s, act) ==> forall fired :: OneShotStep(cfg, s, act, fired)
  {
  }

  lemma OutsideOk(su: Setup, d: Desk, act: Step)
    requires SetupOk(su) && DeskOk(su, d) && Fair(d.sys, act)
    ensures DeskOk(su, After(su, d, Outside(act)))
  {
    if OutsideStep(act) {
      OutsideSame(su.cfg, d.sys, act);
      StepBounded(su.cfg, d.sys, act);
    }
  }

  lemma OutsideInv(su: Setup, d: Desk, act: Step)
    requires SetupOk(su) && DeskInv(su, d) && Fair(d.sys, act)
    ensures DeskInv(su, After(su, d, Outside(act)))
  {
    OutsideOk(su, d, act);
    if OutsideStep(act) {
      OutsideSame(su.cfg, d.sys, act);
      ActBudget(su.cfg, d.sys, Some(act), ShotSlugs(su, d.looks));
    }
  }

  /** Every fair event keeps trading, rollover and evaluations in step. */
  lemma EventOk(su: Setup, d: Desk, e: Event)
    requires SetupOk(su) && DeskOk(su, d) && FairEvent(su, d, e)
    ensures DeskOk(su, After(su, d, e))
  {
    match e
    case Rolling(step) => RollingOk(su, d, step);
    case Looking(r) => if Evaluates(su, d) { LookingOk(su, d, r); }
    case Outside(act) => OutsideOk(su, d, act);
  }

  lemma {:induction false} DeskRunOk(su: Setup, d: Desk, events: seq<Event>)
    requires SetupOk(su) && DeskOk(su, d) && FairDeskRun(su, d, events)
    ensures DeskOk(su, DeskRun(su, d, events))
    decreases events
  {
    if events != [] {
      EventOk(su, d, events[0]);
      DeskRunOk(su, After(su, d, events[0]), events[1..]);
    }
  }

  lemma EventInv(su: Setup, d: Desk, e: Event)
    requires SetupOk(su) && DeskInv(su, d) && InOrder(su, d, e)
    ensures DeskInv(su, After(su, d, e))
  {
    match e
    case Rolling(step) => RollingInv(su, d, step);
    case Looking(r) =>
      if Evaluates(su, d) {
        LookingOk(su, d, r);
        LookingBudget(su, d, r);
      }
    case Outside(act) => OutsideInv(su, d, act);
  }

  lemma {:induction false} DeskRunInv(su: Setup, d: Desk, events: seq<Event>)
    requires SetupOk(su) && DeskInv(su, d) && InOrderRun(su, d, events)
    ensures DeskInv(su, DeskRun(su, d, events))
    decreases events
  {
    if events != [] {
      EventInv(su, d, events[0]);
      DeskRunInv(su, After(su, d, events[0]), events[1..]);
    }
  }

  lemma OpeningInv(su: Setup)
    requires SetupOk(su)
    ensures DeskInv(su, OPENING)
  {
    StartInv(su.cfg);
  }

  /** In every fair run, whatever the prints that arrive: no shot while the window before is unsettled and has traded. */
  lemma NeverTwoInARow(su: Setup, events: seq<Event>, r: Reading, slug: string)
    requires SetupOk(su) && FairDeskRun(su, OPENING, events)
    requires var d := DeskRun(su, OPENING, events);
             && Shot(su, d, r).Some? && slug in d.sys.sessions && d.sys.sessions[slug].stake > 0.0
             && d.sys.sessions[slug].meta.windowClose == CurrentWindow(su, d).start
    ensures !Unsettled(DeskRun(su, OPENING, events).sys.sessions[slug])
  {
    OpeningInv(su);
    DeskRunOk(su, OPENING, events);
    NeighbourSettled(su, DeskRun(su, OPENING, events), r, slug);
  }

  /** The sniper's daily loss budget: in every run in which the closing boundary of each window that has traded is
      captured before the sniper shoots in another window of that day, each day's realised result stays strictly above
      the loss limit, throughout. */
  lemma SniperLossBound(su: Setup, events: seq<Event>)
    requires SetupOk(su) && InOrderRun(su, OPENING, events)
    ensures forall day :: DeskRun(su, OPENING, events).sys.accounts.Daily(day) > -su.cfg.maxDailyLoss
  {
    OpeningInv(su);
    DeskRunInv(su, OPENING, events);
  }

  /** Nor is anything open that could take it there: whatever is settled from here on, each day stays above its limit. */
  lemma NothingWorseWaits(su: Setup, events: seq<Event>, settlements: seq<Step>, day: int)
    requires SetupOk(su) && InOrderRun(su, OPENING, events) && OnlySettles(settlements)
    ensures WorstDay(DeskRun(su, OPENING, events).sys, day) > -su.cfg.maxDailyLoss
    ensures Run(su.cfg, DeskRun(su, OPENING, events).sys, settlements).accounts.Daily(day) > -su.cfg.maxDailyLoss
  {
    OpeningInv(su);
    DeskRunInv(su, OPENING, events);
    OneStakeSuffices(su.cfg, DeskRun(su, OPENING, events).sys, day);
  }

  /** And no window is ever shot in twice, though the memory of past shots is pruned. */
  lemma ShotsIncrease(su: Setup, events: seq<Event>)
    requires SetupOk(su) && InOrderRun(su, OPENING, events)
    ensures Increasing(Watch(DeskRun(su, OPENING, events).looks).shots)
  {
    OpeningInv(su);
    DeskRunInv(su, OPENING, events);
    OneShotPerWindow(DeskRun(su, OPENING, events).looks);
  }
}
