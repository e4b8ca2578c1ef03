/** The engine's session rollover (engine.py, manage_sessions) with oracle prints arriving at any of its awaits. */
module Rollover {
  import opened Grid
  import opened KCapture
  import opened Sessions

  /** window.length_s and window.prefetch_seconds */
  datatype Timing = Timing(length: int, prefetch: real)

  /** Where manage_sessions is suspended: in the cancels and reconciliation of _close_session, in its snapshot,
      or in one of the two calls of _create_session. */
  datatype Place = Idle | InTeardown | InSnapshot | InCreation | InPrefetch

  /** Sessions in order of creation. now is the time of the latest manage_sessions call; wasCurrent is history. */
  datatype Roll = Roll(windows: seq<Window>, current: Option<nat>, next: Option<nat>, settling: map<int, nat>,
                       prints: seq<OraclePrint>, at: Place, now: real, raised: bool, wasCurrent: set<nat>)

  const START: Roll := Roll([], None, None, map[], [], Idle, 0.0, false, {})

  datatype Step = Manage(now: real) | Resume(found: bool) | Oracle(pr: OraclePrint)

  predicate Known(r: Roll, id: Option<nat>) {
    id.Some? ==> id.value < |r.windows|
  }

  predicate IdsOk(r: Roll) {
    && Known(r, r.current) && Known(r, r.next)
    && (forall close <- r.settling :: r.settling[close] < |r.windows|)
    && (r.at in {InTeardown, InSnapshot} ==> r.current.Some?)
  }

  function Change(r: Roll, id: nat, next: SessionState): Roll
    requires id < |r.windows|
  {
    if next in Successors(r.windows[id].state) then r.(windows := r.windows[id := r.windows[id].(state := next)])
    else r.(raised := true)
  }

  /** rtds.get_k */
  function GetK(t: Timing, r: Roll, ws: int): Option<Capture>
    requires t.length > 0
  {
    Stored(AfterPrints(r.prints, t.length), ws)
  }

  /** _settle_session */
  function SettleSession(r: Roll, id: nat, price: real): Roll
    requires id < |r.windows|
  {
    var w := r.windows[id];
    if w.k.None? then r.(settling := r.settling - {w.close})
    else if w.state != Settling then r
    else r.(windows := r.windows[id := w.Resolve(price).(state := Done)], settling := r.settling - {w.close})
  }

  /** _on_k_capture, for one of the two sessions it may concern. */
  function GiveK(r: Roll, id: Option<nat>, ws: int, cap: Capture): Roll
    requires Known(r, id)
  {
    if id.Some? && r.windows[id.value].start == ws
    then r.(windows := r.windows[id.value := r.windows[id.value].SetK(cap)])
    else r
  }

  /** _maybe_capture_k with _on_k_capture */
  function OnPrint(t: Timing, r: Roll, p: OraclePrint): Roll
    requires t.length > 0 && IdsOk(r)
  {
    var after := r.(prints := r.prints + [p]);
    if !Captures?(AfterPrints(r.prints, t.length), p, t.length) then after
    else
      var ws, cap := WindowOf(p, t.length), Capture(p.value, p.ts);
      var given := GiveK(GiveK(after, r.current, ws, cap), r.next, ws, cap);
      if ws in r.settling then SettleSession(given, r.settling[ws], cap.k) else given
  }

  /** Part 3 of manage_sessions: prefetch the next window. */
  function Prefetch(t: Timing, r: Roll): Roll
    requires t.length > 0 && IdsOk(r)
  {
    var nextWs := WindowStart(r.now.Floor, t.length) + t.length;
    if (r.next.None? || r.windows[r.next.value].start != nextWs) && nextWs as real - r.now <= t.prefetch
    then r.(at := InPrefetch)
    else r.(at := Idle)
  }

  /** A session becomes the current one. */
  function Install(t: Timing, r: Roll, id: nat, ws: int): Roll
    requires t.length > 0 && id < |r.windows|
  {
    var r1 := if r.windows[id].state == Pending then Change(r, id, Active) else r;
    var k := GetK(t, r, ws);
    r1.(current := Some(id), next := None, wasCurrent := r.wasCurrent + {id},
        windows := if k.Some? then r1.windows[id := r1.windows[id].SetK(k.value)] else r1.windows)
  }

  /** Part 2 of manage_sessions: promote at the boundary. */
  function Promote(t: Timing, r: Roll): Roll
    requires t.length > 0 && IdsOk(r)
  {
    var ws := WindowStart(r.now.Floor, t.length);
    if r.current.None? || r.windows[r.current.value].start != ws then
      if r.next.Some? && r.windows[r.next.value].start == ws then Prefetch(t, Install(t, r, r.next.value, ws).(at := Idle))
      else r.(at := InCreation)
    else Prefetch(t, r.(at := Idle))
  }

  /** _create_session once discovery has answered. */
  function Created(t: Timing, r: Roll, ws: int): Roll
    requires t.length > 0
  {
    r.(windows := r.windows + [NewWindow(ws, ws + t.length).(k := GetK(t, r, ws))])
  }

  function Next(t: Timing, r: Roll, step: Step): Roll
    requires t.length > 0
  {
    if r.raised || !IdsOk(r) then r
    else
      match step
      case Oracle(p) => OnPrint(t, r, p)
      case Manage(now) =>
        if r.at != Idle then r
        else
          var r1 := r.(now := now);
          if r.current.Some? && now >= r.windows[r.current.value].close as real
          then Change(r1, r.current.value, Closing).(at := InTeardown)
          else Promote(t, r1)
      case Resume(found) =>
        match r.at
        case Idle => r
        case InTeardown =>
          var id := r.current.value;
          Change(r, id, Settling).(settling := r.settling[r.windows[id].close := id], at := InSnapshot)
        case InSnapshot =>
          var id := r.current.value;
          var cap := GetK(t, r, r.windows[id].close);
          var r1 := if cap.Some? then SettleSession(r, id, cap.value.k) else r;
          Promote(t, r1.(current := None, at := Idle))
        case InCreation =>
          var ws := WindowStart(r.now.Floor, t.length);
          if found then Prefetch(t, Install(t, Created(t, r, ws), |r.windows|, ws).(at := Idle)) else Prefetch(t, r.(at := Idle))
        case InPrefetch =>
          var ws := WindowStart(r.now.Floor, t.length) + t.length;
          if found then Created(t, r, ws).(next := Some(|r.windows|), at := Idle) else r.(next := None, at := Idle)
  }

  /** The clock never goes back, and the boundary looked up after the snapshot is among the 16 newest windows. */
  predicate Lawful(t: Timing, r: Roll, step: Step)
    requires t.length > 0
  {
    match step
    case Manage(now) => now >= r.now
    case Resume(_) => r.at == InSnapshot && IdsOk(r) ==> Recent(r.prints, r.windows[r.current.value].close, t.length)
    case Oracle(_) => true
  }

  // ---- the invariant

  /** Starts are aligned, closes one length later; only seen windows have a Price to Beat. */
  predicate WindowsOk(t: Timing, r: Roll)
    requires t.length > 0
  {
    forall w <- r.windows ::
      w.start % t.length == 0 && w.close == w.start + t.length && (w.k.Some? ==> w.start in Seen(r.prints, t.length))
  }

  predicate StateFits(at: Place, s: SessionState) {
    match at
    case InTeardown => s == Closing
    case InSnapshot => s in {Settling, Done}
    case _ => s == Active
  }

  /** The current session has started and is in the state its place in manage_sessions says. */
  predicate CurrentOk(t: Timing, r: Roll)
    requires t.length > 0 && IdsOk(r)
  {
    && r.now >= 0.0
    && (r.at == InCreation ==> r.current.None?)
    && (r.current.Some? ==>
          var w := r.windows[r.current.value];
          && r.current.value in r.wasCurrent && StateFits(r.at, w.state) && w.start <= r.now.Floor
          && (r.at in {InTeardown, InSnapshot} ==> w.close <= r.now.Floor)
          && (r.at == InSnapshot && w.state == Settling && w.close !in Seen(r.prints, t.length) ==>
                w.close in r.settling && r.settling[w.close] == r.current.value))
  }

  predicate NextOk(r: Roll)
    requires IdsOk(r)
  {
    r.next.Some? ==> r.next.value !in r.wasCurrent && r.windows[r.next.value].state == Pending
  }

  /** What has become of a session that was current: done, or waiting for a boundary print not yet seen. */
  predicate Handed(t: Timing, r: Roll, id: nat)
    requires t.length > 0 && id < |r.windows|
  {
    var w := r.windows[id];
    && w.state in {Settling, Done} && w.close <= r.now.Floor
    && (w.state == Settling && w.k.Some? ==>
          w.close in r.settling && r.settling[w.close] == id && w.close !in Seen(r.prints, t.length))
  }

  predicate PastOk(t: Timing, r: Roll)
    requires t.length > 0
  {
    forall id <- r.wasCurrent :: id < |r.windows| && (Some(id) != r.current ==> Handed(t, r, id))
  }

  /** One current session per window, and the settling map files sessions under their own closes. */
  predicate FiledOk(r: Roll)
    requires IdsOk(r) && forall id <- r.wasCurrent :: id < |r.windows|
  {
    && (forall i <- r.wasCurrent, j <- r.wasCurrent :: i != j ==> r.windows[i].start != r.windows[j].start)
    && (forall close <- r.settling :: r.settling[close] in r.wasCurrent && r.windows[r.settling[close]].close == close)
  }

  predicate Agrees(t: Timing, r: Roll, id: Option<nat>)
    requires t.length > 0 && Known(r, id)
  {
    id.Some? && Recent(r.prints, r.windows[id.value].start, t.length)
    ==> r.windows[id.value].k == Earliest(r.prints, r.windows[id.value].start, t.length)
  }

  predicate Inv(t: Timing, r: Roll)
    requires t.length > 0
  {
    && !r.raised && IdsOk(r) && WindowsOk(t, r) && CurrentOk(t, r) && NextOk(r) && PastOk(t, r) && FiledOk(r)
    && Agrees(t, r, r.current) && Agrees(t, r, r.next)
  }
}
