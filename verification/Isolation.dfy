/** Orders do not interfere in the exchange: deleting every place and cancel of all other orders from a run
    leaves an order's fills and final state as they were, trade numbers apart. */
module Isolation {
  import opened Orders
  import opened Exchange
  import opened OneOrder
  import opened Projection
  import opened NonInterference

  /** One call into the order manager or the exchange, with the market it finds. */
  datatype Event =
    | Drafting(order: Order)
    | Placing(id: nat, due: int)
    | Canceling(id: nat, due: int)
    | CancelingAll(slug: string, now: int, lag: nat -> nat)
    | Elapsing(now: int, market: Market)
    | Printing(tape: Print, market: Market)

  predicate NewlyDrafted(o: Order) {
    o == NewOrder(o.slug, o.token, o.side, o.price, o.size, o.tif)
  }

  /** One event, after whatever the one before it raised has been caught. */
  ghost function Apply(c: Core, e: Event): Core {
    Done(Caught(c), e)
  }

  ghost function Done(c: Core, e: Event): Core {
    if !Indexed(c) then c
    else
      match e
      case Drafting(o) => if NewlyDrafted(o) then Drafted(c, o) else c
      case Placing(id, due) => if id < |c.orders| then Submit(c, id, due) else c
      case Canceling(id, due) => if id < |c.orders| then RequestCancel(c, id, due) else c
      case CancelingAll(slug, now, lag) => CancelAll(c, slug, now, lag)
      case Elapsing(now, m) => ProcessDue(c, m, now)
      case Printing(tape, m) => OnTrade(c, m, tape)
  }

  ghost function Play(c: Core, es: seq<Event>): Core
    decreases es
  {
    if es == [] then c else Play(Apply(c, es[0]), es[1..])
  }

  /** A place or cancel of some order other than i. */
  predicate Foreign(e: Event, i: nat) {
    (e.Placing? || e.Canceling?) && e.id != i
  }

  function WithoutForeign(es: seq<Event>, i: nat): seq<Event> {
    if es == [] then []
    else if Foreign(es[0], i) then WithoutForeign(es[1..], i)
    else [es[0]] + WithoutForeign(es[1..], i)
  }

  /** What an event does to an order that is already there; what was caught leaves no mark. */
  function LifeEvent(l: Life, e: Event): Life {
    match e
    case Drafting(_) => l
    case Placing(id, due) => if id == l.id then Send(l, due).(raised := false) else l
    case Canceling(id, due) => if id == l.id then AskCancel(l, due) else l
    case CancelingAll(slug, now, lag) => AskCancelAll(l, slug, now + lag(l.id))
    case Elapsing(now, m) => Elapse(l, m.BookOf(l.order.token), m.FeeOf(l.order.token), now)
    case Printing(tape, m) => Tape(l, m.FeeOf(l.order.token), tape)
  }

  /** Something of the order is due, or a print of its token finds it resting. */
  predicate Reaches(l: Life, e: Event) {
    || (e.Elapsing? && (TimesBy(l.places, e.now) != [] || TimesBy(l.cancels, e.now) != []))
    || (e.Printing? && l.rest.Some? && l.order.token == e.tape.token)
  }

  /** The event does not raise in the exchange, or does not reach order i there. */
  ghost predicate SparedBy(c: Core, e: Event, i: nat) {
    (e.Elapsing? || e.Printing?) && Apply(c, e).fault && i < |c.orders| ==> !Reaches(LifeOf(c, i), e)
  }

  /** No exception in the exchange meets order i while something of it is due or traded. */
  ghost predicate Spared(c: Core, es: seq<Event>, i: nat)
    decreases es
  {
    es != [] ==> SparedBy(c, es[0], i) && Spared(Apply(c, es[0]), es[1..], i)
  }

  // ---- one event, seen from one order

  lemma CaughtOrderly(c: Core)
    requires Orderly(c)
    ensures Orderly(Caught(c)) && !Caught(c).fault
    ensures forall i :: 0 <= i < |c.orders| ==> LifeOf(Caught(c), i) == LifeOf(c, i)
  {
  }

  lemma RequestProjects(c: Core, e: Event, i: nat)
    requires Orderly(c) && !c.fault && i < |c.orders| && (e.Drafting? || e.Placing? || e.Canceling?)
    ensures i < |Done(c, e).orders| && LifeOf(Done(c, e), i) == LifeEvent(LifeOf(c, i), e)
  {
    match e
    case Drafting(o) => DraftedProjects(c, NewOrder(o.slug, o.token, o.side, o.price, o.size, o.tif));
    case Placing(id, due) => if id < |c.orders| { SendMoves(c, id, due); }
    case Canceling(id, due) => if id < |c.orders| { AskCancelMoves(c, id, due); }
  }

  lemma VenueProjects(c: Core, e: Event, i: nat)
    requires Orderly(c) && !c.fault && !Done(c, e).fault && i < |c.orders| && (e.Elapsing? || e.Printing?)
    ensures i < |Done(c, e).orders| && LifeOf(Done(c, e), i) == LifeEvent(LifeOf(c, i), e)
  {
    if e.Elapsing? { ProcessDueProjects(c, e.market, e.now); } else { OnTradeProjects(c, e.market, e.tape); }
  }

  lemma AllProjects(c: Core, e: Event, i: nat)
    requires Orderly(c) && !c.fault && i < |c.orders| && e.CancelingAll?
    ensures i < |Done(c, e).orders| && LifeOf(Done(c, e), i) == LifeEvent(LifeOf(c, i), e)
  {
    CancelAllLife(c, e.slug, e.now, e.lag, i);
  }

  lemma UnreachedLife(l: Life, e: Event)
    requires !Reaches(l, e) && (e.Elapsing? || e.Printing?) && !l.raised
    ensures LifeEvent(l, e) == l
  {
    if e.Elapsing? {
      NothingDue(l.places, e.now);
      NothingDue(l.cancels, e.now);
      assert l.(places := l.places) == l && l.(cancels := l.cancels) == l;
    }
  }

  lemma UnreachedProjects(c: Core, e: Event, i: nat)
    requires Orderly(c) && !c.fault && i < |c.orders| && !Reaches(LifeOf(c, i), e) && (e.Elapsing? || e.Printing?)
    ensures i < |Done(c, e).orders| && LifeOf(Done(c, e), i) == LifeOf(c, i)
  {
    if e.Elapsing? { ElapseElsewhere(c, e.market, e.now, i); } else { TapesElsewhere(c, e.market, RestIds(c.resting), e.tape, i); }
  }

  /** Every event that spares an order does to it what the order's own machine does. */
  lemma EventProjects(c: Core, e: Event, i: nat)
    requires Orderly(c) && i < |c.orders| && SparedBy(c, e, i)
    ensures i < |Apply(c, e).orders| && LifeOf(Apply(c, e), i) == LifeEvent(LifeOf(c, i), e)
  {
    CaughtOrderly(c);
    var b := Caught(c);
    if e.Drafting? || e.Placing? || e.Canceling? {
      RequestProjects(b, e, i);
    } else if (e.Elapsing? || e.Printing?) && !Reaches(LifeOf(b, i), e) {
      UnreachedLife(LifeOf(b, i), e);
      UnreachedProjects(b, e, i);
    } else if e.CancelingAll? {
      AllProjects(b, e, i);
    } else {
      VenueProjects(b, e, i);
    }
  }

  lemma EventOrderly(c: Core, e: Event)
    requires Orderly(c)
    ensures Orderly(Apply(c, e))
    ensures |Apply(c, e).orders| == |c.orders| + if e.Drafting? && NewlyDrafted(e.order) then 1 else 0
  {
    CaughtOrderly(c);
    var b := Caught(c);
    match e
    case Drafting(o) => if NewlyDrafted(o) { DraftedProjects(b, o); }
    case Placing(id, due) => if id < |b.orders| { SendMoves(b, id, due); }
    case Canceling(id, due) => if id < |b.orders| { AskCancelMoves(b, id, due); }
    case CancelingAll(slug, now, lag) => CancelAllProjects(b, slug, now, lag);
    case Elapsing(now, m) => ProcessDueOrderly(b, m, now);
    case Printing(tape, m) => TapesOrderly(b, m, RestIds(b.resting), tape);
  }

  /** Never placed, never cancelled: nothing in the exchange can reach it. */
  predicate Idle(l: Life) {
    l.order.state == Draft && l.places == [] && l.cancels == [] && l.rest.None? && l.fills == [] && !l.acked && !l.raised
  }

  lemma IdleEvent(l: Life, e: Event)
    requires Idle(l) && !((e.Placing? || e.Canceling?) && e.id == l.id)
    ensures Idle(LifeEvent(l, e)) && !Reaches(l, e)
  {
    if e.Elapsing? {
      assert l.(places := []) == l && l.(cancels := []) == l;
    }
  }

  // ---- the full history and the reduced one

  /** Core d sees only order i: its order i is that of core c and all its other orders are idle. */
  ghost predicate Sees(c: Core, d: Core, i: nat) {
    && Orderly(c) && Orderly(d) && |c.orders| == |d.orders|
    && (i < |c.orders| ==> LifeOf(c, i) == LifeOf(d, i))
    && forall j :: 0 <= j < |d.orders| && j != i ==> Idle(LifeOf(d, j))
  }

  /** In the reduced history nothing raises that did not raise in the full one, and in the exchange nothing at all. */
  lemma ReducedQuiet(c: Core, d: Core, e: Event, i: nat)
    requires Sees(c, d, i) && !Foreign(e, i) && SparedBy(c, e, i)
    ensures Apply(d, e).fault ==> e.Placing? && Apply(c, e).fault
  {
    CaughtOrderly(c);
    CaughtOrderly(d);
    if e.Placing? {
      if i < |d.orders| {
        SendMoves(Caught(d), i, e.due);
        SendMoves(Caught(c), i, e.due);
      }
    } else if e.Elapsing? || e.Printing? {
      VenueQuiet(c, d, e, i);
    } else if e.CancelingAll? {
      CancelAllProjects(Caught(d), e.slug, e.now, e.lag);
    }
  }

  /** What an event of the exchange does to any order of the reduced history does not raise. */
  lemma OwnQuiet(c: Core, d: Core, e: Event, i: nat, j: nat)
    requires Sees(c, d, i) && SparedBy(c, e, i) && (e.Elapsing? || e.Printing?) && j < |d.orders|
    ensures !LifeEvent(LifeOf(d, j), e).raised
  {
    if j != i {
      IdleEvent(LifeOf(d, j), e);
    } else {
      EventProjects(c, e, i);
    }
  }

  lemma VenueQuiet(c: Core, d: Core, e: Event, i: nat)
    requires Sees(c, d, i) && SparedBy(c, e, i) && (e.Elapsing? || e.Printing?)
    ensures !Apply(d, e).fault
  {
    var b := Caught(d);
    CaughtOrderly(d);
    forall j | 0 <= j < |b.orders| ensures !LifeEvent(LifeOf(b, j), e).raised { OwnQuiet(c, d, e, i, j); }
    if e.Elapsing? {
      ProcessDueProjects(b, e.market, e.now);
      assert forall j :: 0 <= j < |b.orders| ==>
        LifeEvent(LifeOf(b, j), e) == Elapse(LifeOf(b, j), BookFor(b, e.market, j), FeeFor(b, e.market, j), e.now);
    } else {
      OnTradeProjects(b, e.market, e.tape);
      assert forall j :: 0 <= j < |b.orders| ==> LifeEvent(LifeOf(b, j), e) == Tape(LifeOf(b, j), FeeFor(b, e.market, j), e.tape);
    }
  }

  lemma ReducedSpared(c: Core, d: Core, e: Event, i: nat, j: nat)
    requires Sees(c, d, i) && !Foreign(e, i) && SparedBy(c, e, i)
    ensures SparedBy(d, e, j)
  {
    ReducedQuiet(c, d, e, i);
  }

  lemma KeptOwn(c: Core, d: Core, e: Event, i: nat)
    requires Sees(c, d, i) && !Foreign(e, i) && SparedBy(c, e, i) && i < |c.orders|
    ensures i < |Apply(c, e).orders| && i < |Apply(d, e).orders| && LifeOf(Apply(c, e), i) == LifeOf(Apply(d, e), i)
  {
    ReducedSpared(c, d, e, i, i);
    EventProjects(c, e, i);
    EventProjects(d, e, i);
  }

  lemma KeptIdle(c: Core, d: Core, e: Event, i: nat, j: nat)
    requires Sees(c, d, i) && !Foreign(e, i) && SparedBy(c, e, i) && j < |d.orders| && j != i
    ensures j < |Apply(d, e).orders| && Idle(LifeOf(Apply(d, e), j))
  {
    ReducedSpared(c, d, e, i, j);
    EventProjects(d, e, j);
    IdleEvent(LifeOf(d, j), e);
  }

  lemma NewSeen(c: Core, d: Core, o: Order)
    requires Orderly(c) && Orderly(d) && |c.orders| == |d.orders| && NewlyDrafted(o)
    ensures var n, c1, d1 := |c.orders|, Apply(c, Drafting(o)), Apply(d, Drafting(o));
            n < |c1.orders| && n < |d1.orders| && LifeOf(c1, n) == LifeOf(d1, n) && Idle(LifeOf(d1, n))
  {
    CaughtOrderly(c);
    CaughtOrderly(d);
    DraftedProjects(Caught(c), o);
    DraftedProjects(Caught(d), o);
  }

  lemma KeptEvent(c: Core, d: Core, e: Event, i: nat)
    requires Sees(c, d, i) && !Foreign(e, i) && SparedBy(c, e, i)
    ensures Sees(Apply(c, e), Apply(d, e), i)
  {
    EventOrderly(c, e);
    EventOrderly(d, e);
    if i < |c.orders| { KeptOwn(c, d, e, i); }
    forall j | 0 <= j < |d.orders| && j != i ensures Idle(LifeOf(Apply(d, e), j)) { KeptIdle(c, d, e, i, j); }
    if e.Drafting? && NewlyDrafted(e.order) { NewSeen(c, d, e.order); }
  }

  lemma DroppedEvent(c: Core, d: Core, e: Event, i: nat)
    requires Sees(c, d, i) && Foreign(e, i)
    ensures Sees(Apply(c, e), d, i)
  {
    EventOrderly(c, e);
    if i < |c.orders| { EventProjects(c, e, i); }
  }

  /** Some event of the history raises. */
  ghost predicate Raises(c: Core, es: seq<Event>)
    decreases es
  {
    es != [] && (Apply(c, es[0]).fault || Raises(Apply(c, es[0]), es[1..]))
  }

  /** Non-interference: order i ends in the same state with the same fills without the places and cancels of all
      other orders, if no exception in the exchange meets it; and nothing raises then that did not before. */
  lemma {:induction false} DeletingOthers(c: Core, d: Core, es: seq<Event>, i: nat)
    requires Sees(c, d, i) && Spared(c, es, i)
    ensures Sees(Play(c, es), Play(d, WithoutForeign(es, i)), i)
    ensures Raises(d, WithoutForeign(es, i)) ==> Raises(c, es)
    decreases es
  {
    if es != [] {
      if Foreign(es[0], i) {
        DroppedEvent(c, d, es[0], i);
        DeletingOthers(Apply(c, es[0]), d, es[1..], i);
      } else {
        ReducedQuiet(c, d, es[0], i);
        KeptEvent(c, d, es[0], i);
        var rest := WithoutForeign(es[1..], i);
        assert ([es[0]] + rest)[1..] == rest;
        DeletingOthers(Apply(c, es[0]), Apply(d, es[0]), es[1..], i);
      }
    }
  }

  /** The same, from the empty exchange. */
  lemma NonInterferenceFromStart(es: seq<Event>, i: nat)
    requires Spared(EMPTY, es, i) && i < |Play(EMPTY, es).orders|
    ensures var d := Play(EMPTY, WithoutForeign(es, i));
            && i < |d.orders| && LifeOf(d, i) == LifeOf(Play(EMPTY, es), i)
            && (Raises(EMPTY, WithoutForeign(es, i)) ==> Raises(EMPTY, es))
  {
    DeletingOthers(EMPTY, EMPTY, es, i);
  }

  // ---- an exception is interference

  /** Order 1's place and cancel are pending, the cancel due at 10, and so is a cancel of order 0, which is in DRAFT. */
  predicate Overtaken(c: Core) {
    && |c.orders| == 2 && c.orders[0].state == Draft && c.orders[1].state == Acked && !c.fault
    && c.places == [Pending(30, 1)] && c.cancels == [Pending(10, 0), Pending(10, 1)] && c.resting == []
  }

  /** Order 1's alone. */
  predicate Alone(c: Core) {
    && |c.orders| == 2 && c.orders[1].state == Acked && !c.fault
    && c.places == [Pending(30, 1)] && c.cancels == [Pending(10, 1)] && c.resting == []
  }

  lemma NoPlaceDue(c: Core, m: Market)
    requires KnownIds(c.places, |c.orders|) && c.places == [Pending(30, 1)]
    ensures ProcessPlaces(c, m, 10) == c
  {
    var p := Pending(30, 1);
    assert [p][1..] == [] && DueBy([], 10) == [] && DueAfter([], 10) == [] && ByDue([]) == [];
    assert DueBy([p], 10) == [] && DueAfter([p], 10) == [p];
    assert ArriveAll(c.(places := [p]), m, []) == c;
  }

  lemma FirstCancelRaises(c: Core, m: Market)
    requires Overtaken(c)
    ensures Indexed(c)
    ensures var r := ProcessDue(c, m, 10);
            r.fault && r.cancels == [] && r.places == [Pending(30, 1)] && |r.orders| == 2 && r.orders[1] == c.orders[1]
  {
    var p, q := Pending(10, 0), Pending(10, 1);
    NoPlaceDue(c, m);
    assert [p, q][1..] == [q] && [q][1..] == [] && DueBy([], 10) == [] && DueAfter([], 10) == [] && ByDue([]) == [];
    assert DueBy([q], 10) == [q] && DueAfter([q], 10) == [] && ByDue([q]) == [q];
    assert DueBy([p, q], 10) == [p, q] && DueAfter([p, q], 10) == [] && ByDue([p, q]) == [p, q];
    var c1 := c.(cancels := []);
    assert Without([], 0) == [] && Without(c.places, 0) == c.places;
    assert ArriveCancel(c1, 0) == c1.(fault := true);
    assert CancelAllDue(c1, [p, q]) == c1.(fault := true);
  }

  lemma CancelArrives(c: Core, m: Market)
    requires Alone(c)
    ensures Indexed(c)
    ensures var r := ProcessDue(c, m, 10); !r.fault && |r.orders| == 2 && r.orders[1].state == Canceled && r.places == []
  {
    var q := Pending(10, 1);
    NoPlaceDue(c, m);
    assert [q][1..] == [] && DueBy([], 10) == [] && DueAfter([], 10) == [] && ByDue([]) == [];
    assert DueBy([q], 10) == [q] && DueAfter([q], 10) == [] && ByDue([q]) == [q];
    var c1 := c.(cancels := []);
    assert Without([], 1) == [] && Without(c.places, 1) == [];
    var r := ArriveCancel(c1, 1);
    assert !r.fault && r.orders[1].state == Canceled && r.places == [];
    assert CancelAllDue(c1, [q]) == r;
  }

  lemma PlayThree(c: Core, x: Event, y: Event, z: Event, rest: seq<Event>)
    ensures Play(c, [x, y, z] + rest) == Play(Apply(Apply(Apply(c, x), y), z), rest)
  {
    var es, c1, c2 := [x, y, z] + rest, Apply(c, x), Apply(Apply(c, x), y);
    assert es[1..] == [y, z] + rest && ([y, z] + rest)[1..] == [z] + rest && ([z] + rest)[1..] == rest;
    assert Play(c, es) == Play(c1, [y, z] + rest);
    assert Play(c1, [y, z] + rest) == Play(c2, [z] + rest);
  }

  lemma PlayTwo(c: Core, x: Event, y: Event, rest: seq<Event>)
    ensures Play(c, [x, y] + rest) == Play(Apply(Apply(c, x), y), rest)
  {
    var es := [x, y] + rest;
    assert es[1..] == [y] + rest && ([y] + rest)[1..] == rest;
    assert Play(c, es) == Play(Apply(c, x), [y] + rest);
  }

  /** Two orders are drafted; order 0 is cancelled before it is submitted; order 1 is submitted and cancelled. */
  function Opening(o: Order, p: Order): seq<Event> {
    [Drafting(o), Drafting(p), Canceling(0, 10)]
  }

  function Sequel(m: Market): seq<Event> {
    [Placing(1, 30), Canceling(1, 10), Elapsing(10, m)]
  }

  lemma Reduced(o: Order, p: Order, m: Market)
    ensures WithoutForeign(Opening(o, p) + Sequel(m), 1) == [Drafting(o), Drafting(p)] + Sequel(m)
  {
    var s := Sequel(m);
    SequelOwn(m);
    Head(Canceling(0, 10), s, 1);
    Head(Drafting(p), [Canceling(0, 10)] + s, 1);
    Head(Drafting(o), [Drafting(p)] + ([Canceling(0, 10)] + s), 1);
    assert Opening(o, p) + s == [Drafting(o)] + ([Drafting(p)] + ([Canceling(0, 10)] + s));
    assert [Drafting(o), Drafting(p)] + s == [Drafting(o)] + ([Drafting(p)] + s);
  }

  lemma Head(e: Event, rest: seq<Event>, i: nat)
    ensures WithoutForeign([e] + rest, i)
            == if Foreign(e, i) then WithoutForeign(rest, i) else [e] + WithoutForeign(rest, i)
  {
    assert ([e] + rest)[1..] == rest;
  }

  lemma SequelOwn(m: Market)
    ensures WithoutForeign(Sequel(m), 1) == Sequel(m)
  {
    var last := [Elapsing(10, m)];
    Head(Elapsing(10, m), [], 1);
    assert last == [Elapsing(10, m)] + [];
    Head(Canceling(1, 10), last, 1);
    Head(Placing(1, 30), [Canceling(1, 10)] + last, 1);
    assert Sequel(m) == [Placing(1, 30)] + ([Canceling(1, 10)] + last);
  }

  lemma Drafts(o: Order, p: Order)
    requires NewlyDrafted(o) && NewlyDrafted(p)
    ensures Apply(Apply(EMPTY, Drafting(o)), Drafting(p)) == EMPTY.(orders := [o, p])
  {
    assert Apply(EMPTY, Drafting(o)).orders == [o];
    assert [o] + [p] == [o, p];
  }

  /** Order 1 is submitted and its cancel asked for. */
  lemma SecondAsked(c: Core)
    requires |c.orders| == 2 && c.orders[1].state == Draft && !c.fault && c.places == [] && c.resting == []
    requires KnownIds(c.cancels, 2)
    ensures var r := Apply(Apply(c, Placing(1, 30)), Canceling(1, 10));
            && |r.orders| == 2 && r.orders[0] == c.orders[0] && r.orders[1].state == Acked && !r.fault
            && r.places == [Pending(30, 1)] && r.cancels == c.cancels + [Pending(10, 1)] && r.resting == []
  {
    SecondSent(c);
  }

  lemma SecondSent(c: Core)
    requires |c.orders| == 2 && c.orders[1].state == Draft && !c.fault && c.places == [] && c.resting == []
    requires KnownIds(c.cancels, 2)
    ensures var r := Apply(c, Placing(1, 30));
            && |r.orders| == 2 && r.orders[0] == c.orders[0] && r.orders[1].state == Acked && !r.fault
            && r.places == [Pending(30, 1)] && r.cancels == c.cancels && r.resting == []
  {
    assert Apply(c, Placing(1, 30)) == Submit(c, 1, 30);
  }

  lemma FirstAsked(o: Order, p: Order, c: Core)
    requires NewlyDrafted(o) && NewlyDrafted(p) && c == EMPTY.(orders := [o, p])
    ensures var r := Apply(c, Canceling(0, 10));
            && |r.orders| == 2 && r.orders[0].state == Draft && r.orders[1] == p && !r.fault
            && r.places == [] && r.cancels == [Pending(10, 0)] && r.resting == []
  {
  }

  lemma LastOf(m: Market, c: Core, r: Core)
    requires r == Apply(Apply(Apply(c, Placing(1, 30)), Canceling(1, 10)), Elapsing(10, m))
    ensures Play(c, Sequel(m)) == r
  {
    PlayThree(c, Placing(1, 30), Canceling(1, 10), Elapsing(10, m), []);
    assert Sequel(m) + [] == Sequel(m);
  }

  /** The due cancel of order 0, still in DRAFT, raises, and the cancel of order 1 that is due with it is lost: order 1
      stays pending. Without order 0's cancel order 1 is cancelled. */
  lemma RaisingInterferes(o: Order, p: Order, m: Market)
    requires NewlyDrafted(o) && NewlyDrafted(p)
    ensures var full, alone := Play(EMPTY, Opening(o, p) + Sequel(m)), Play(EMPTY, WithoutForeign(Opening(o, p) + Sequel(m), 1));
            && |full.orders| == |alone.orders| == 2
            && full.orders[1].state == Acked && full.places == [Pending(30, 1)] && full.cancels == []
            && alone.orders[1].state == Canceled && alone.places == []
  {
    var c := EMPTY.(orders := [o, p]);
    Drafts(o, p);
    Reduced(o, p, m);
    PlayThree(EMPTY, Drafting(o), Drafting(p), Canceling(0, 10), Sequel(m));
    PlayTwo(EMPTY, Drafting(o), Drafting(p), Sequel(m));
    FirstAsked(o, p, c);
    FullLast(Apply(c, Canceling(0, 10)), m);
    AloneLast(c, m);
  }

  lemma FullLast(c: Core, m: Market)
    requires |c.orders| == 2 && c.orders[0].state == Draft && c.orders[1].state == Draft && !c.fault
    requires c.places == [] && c.cancels == [Pending(10, 0)] && c.resting == []
    ensures var r := Play(c, Sequel(m));
            |r.orders| == 2 && r.orders[1].state == Acked && r.places == [Pending(30, 1)] && r.cancels == []
  {
    var d := Apply(Apply(c, Placing(1, 30)), Canceling(1, 10));
    BothAsked(c);
    LostAt10(d, m);
    LastOf(m, c, Apply(d, Elapsing(10, m)));
  }

  lemma BothAsked(c: Core)
    requires |c.orders| == 2 && c.orders[0].state == Draft && c.orders[1].state == Draft && !c.fault
    requires c.places == [] && c.cancels == [Pending(10, 0)] && c.resting == []
    ensures Overtaken(Apply(Apply(c, Placing(1, 30)), Canceling(1, 10)))
  {
    SecondAsked(c);
    assert c.cancels + [Pending(10, 1)] == [Pending(10, 0), Pending(10, 1)];
  }

  lemma LostAt10(c: Core, m: Market)
    requires Overtaken(c)
    ensures var r := Apply(c, Elapsing(10, m));
            |r.orders| == 2 && r.orders[1].state == Acked && r.places == [Pending(30, 1)] && r.cancels == []
  {
    FirstCancelRaises(c, m);
  }

  lemma CanceledAt10(c: Core, m: Market)
    requires Alone(c)
    ensures var r := Apply(c, Elapsing(10, m)); |r.orders| == 2 && r.orders[1].state == Canceled && r.places == []
  {
    CancelArrives(c, m);
  }

  lemma OneAsked(c: Core)
    requires |c.orders| == 2 && c.orders[1].state == Draft && !c.fault && c.places == [] && c.cancels == [] && c.resting == []
    ensures Alone(Apply(Apply(c, Placing(1, 30)), Canceling(1, 10)))
  {
    SecondAsked(c);
    assert c.cancels + [Pending(10, 1)] == [Pending(10, 1)];
  }

  lemma AloneLast(c: Core, m: Market)
    requires |c.orders| == 2 && c.orders[1].state == Draft && !c.fault && c.places == [] && c.cancels == [] && c.resting == []
    ensures var r := Play(c, Sequel(m)); |r.orders| == 2 && r.orders[1].state == Canceled && r.places == []
  {
    var d := Apply(Apply(c, Placing(1, 30)), Canceling(1, 10));
    OneAsked(c);
    CanceledAt10(d, m);
    LastOf(m, c, Apply(d, Elapsing(10, m)));
  }
}
