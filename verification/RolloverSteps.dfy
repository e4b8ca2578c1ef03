/** What one step of the rollover does to the sessions: at most one of them is closed or settled, and at most one is
    created or becomes the current one, which is then the newest that ever was. */
module RolloverSteps {
  import opened Grid
  import opened KCapture
  import opened Sessions
  import opened Rollover
  import opened RolloverOrder
  import opened RolloverClose

  datatype Part = Trading | Waiting | Over

  function PartOf(s: SessionState): Part {
    match s
    case Pending => Trading
    case Active => Trading
    case Closing => Waiting
    case Settling => Waiting
    case Done => Over
  }

  /** The session a step may close or settle. */
  function Concerned(t: Timing, r: Roll, step: Step): Option<nat>
    requires t.length > 0
  {
    match step
    case Manage(_) => if r.at == Idle then r.current else None
    case Oracle(p) => var ws := WindowOf(p, t.length); if ws in r.settling then Some(r.settling[ws]) else None
    case Resume(_) => if r.at == InSnapshot then r.current else None
  }

  /** No change that anybody else has to hear of. */
  predicate Quiet(w: Window, x: Window) {
    PartOf(x.state) == PartOf(w.state) && (w.state == Done ==> x.outcome == w.outcome)
  }

  predicate Closes(w: Window, x: Window) {
    PartOf(w.state) == Trading && PartOf(x.state) == Waiting
  }

  predicate Settles(w: Window, x: Window) {
    PartOf(w.state) == Waiting && x.state == Done && x.outcome.Some?
  }

  /** A session keeps its window and its Price to Beat, and is closed or settled only as the one concerned. */
  predicate Turned(w: Window, x: Window, concerned: bool) {
    && x.start == w.start && x.close == w.close && (w.k.Some? ==> x.k.Some?)
    && (Quiet(w, x) || (concerned && (Closes(w, x) || Settles(w, x))))
  }

  /** The current session started last of all that ever were current. */
  predicate Ordered(r: Roll) {
    && (forall id <- r.wasCurrent :: id < |r.windows|)
    && (r.current.Some? ==>
          && r.current.value in r.wasCurrent
          && forall id <- r.wasCurrent :: id != r.current.value ==> r.windows[id].start < r.windows[r.current.value].start)
  }

  /** Sessions are only added, one at a time; a new current session has never been current and starts after all that
      have. */
  predicate Grew(r: Roll, q: Roll) {
    && |r.windows| <= |q.windows| <= |r.windows| + 1
    && (|q.windows| > |r.windows| ==> PartOf(q.windows[|r.windows|].state) == Trading)
    && (forall id <- r.wasCurrent :: id < |r.windows|)
    && (if q.wasCurrent == r.wasCurrent then q.current == r.current || q.current == None else Installed(r, q))
  }

  predicate Installed(r: Roll, q: Roll) {
    && q.current.Some? && q.current.value < |q.windows|
    && q.current.value !in r.wasCurrent && q.wasCurrent == r.wasCurrent + {q.current.value}
    && q.windows[q.current.value].state == Active
    && forall id <- r.wasCurrent :: id < |q.windows| && q.windows[id].start < q.windows[q.current.value].start
  }

  /** Whatever has been handed over started at least one length before the window of the present. */
  lemma PastIsOlder(t: Timing, r: Roll, id: nat)
    requires t.length > 0 && WindowsOk(t, r) && id < |r.windows| && r.windows[id].close <= r.now.Floor
    ensures r.windows[id].start < WindowStart(r.now.Floor, t.length)
  {
    var start, now := r.windows[id].start, r.now.Floor;
    assert r.windows[id] in r.windows;
    WindowContains(now, t.length, start);
  }

  predicate AllTurned(r: Roll, q: Roll, c: Option<nat>) {
    |r.windows| <= |q.windows| && forall i :: 0 <= i < |r.windows| ==> Turned(r.windows[i], q.windows[i], c == Some(i))
  }

  lemma InstallGrew(t: Timing, r: Roll, id: nat, ws: int)
    requires t.length > 0 && Inv(t, r) && r.current == None && r.at == Idle && id < |r.windows| && id !in r.wasCurrent
    requires ws == WindowStart(r.now.Floor, t.length) && r.windows[id].start == ws && r.windows[id].state == Pending
    ensures var q := Install(t, r, id, ws);
            |q.windows| == |r.windows| && AllTurned(r, q, None) && Installed(r, q)
  {
    var q := Install(t, r, id, ws);
    forall j | j in r.wasCurrent ensures q.windows[j].start < ws {
      assert Handed(t, r, j);
      PastIsOlder(t, r, j);
    }
  }

  lemma PromoteGrew(t: Timing, r: Roll)
    requires t.length > 0 && Inv(t, r) && r.at == Idle
    requires r.current.Some? ==> r.now < r.windows[r.current.value].close as real
    ensures var q := Promote(t, r); |q.windows| == |r.windows| && AllTurned(r, q, None) && Grew(r, q)
  {
    var ws := WindowStart(r.now.Floor, t.length);
    if r.current.Some? {
      var w := r.windows[r.current.value];
      assert w in r.windows;
      WindowContains(r.now.Floor, t.length, w.start);
    } else if r.next.Some? && r.windows[r.next.value].start == ws {
      InstallGrew(t, r, r.next.value, ws);
    }
  }

  // ---- step by step

  lemma PrintTurned(t: Timing, r: Roll, p: OraclePrint, i: nat)
    requires t.length > 0 && Inv(t, r) && i < |r.windows|
    ensures i < |OnPrint(t, r, p).windows|
    ensures Turned(r.windows[i], OnPrint(t, r, p).windows[i], Concerned(t, r, Oracle(p)) == Some(i))
  {
    PrintTouches(t, r, p, i);
    PrintAdvances(t, r, p, i);
  }

  lemma PrintGrew(t: Timing, r: Roll, p: OraclePrint)
    requires t.length > 0 && Inv(t, r)
    ensures var q := OnPrint(t, r, p);
            |q.windows| == |r.windows| && AllTurned(r, q, Concerned(t, r, Oracle(p))) && Grew(r, q)
  {
    var q := OnPrint(t, r, p);
    if r.windows == [] { NoWindows(t, r, p); } else { PrintTouches(t, r, p, 0); }
    forall i | 0 <= i < |r.windows| ensures Turned(r.windows[i], q.windows[i], Concerned(t, r, Oracle(p)) == Some(i)) {
      PrintTurned(t, r, p, i);
    }
  }

  lemma ManageGrew(t: Timing, r: Roll, now: real)
    requires t.length > 0 && Inv(t, r) && now >= r.now
    ensures var q := Next(t, r, Manage(now));
            |q.windows| == |r.windows| && AllTurned(r, q, Concerned(t, r, Manage(now))) && Grew(r, q)
  {
    if r.at == Idle && !(r.current.Some? && now >= r.windows[r.current.value].close as real) {
      LaterInv(t, r, now);
      PromoteGrew(t, r.(now := now));
    }
  }

  lemma SnapshotTurned(r: Roll, id: nat, price: real)
    requires id < |r.windows|
    ensures var q := SettleSession(r, id, price); |q.windows| == |r.windows| && AllTurned(r, q, Some(id))
  {
  }

  lemma TurnedOn(r: Roll, r1: Roll, q: Roll, c: Option<nat>)
    requires |r1.windows| == |r.windows| && AllTurned(r, r1, c) && AllTurned(r1, q, None)
    ensures AllTurned(r, q, c)
  {
    forall i | 0 <= i < |r.windows| ensures Turned(r.windows[i], q.windows[i], c == Some(i)) {
      assert Turned(r.windows[i], r1.windows[i], c == Some(i)) && Turned(r1.windows[i], q.windows[i], None == Some(i));
    }
  }

  lemma SnapshotGrew(t: Timing, r: Roll, found: bool)
    requires t.length > 0 && Inv(t, r) && r.at == InSnapshot
    requires Recent(r.prints, r.windows[r.current.value].close, t.length)
    ensures var q := Next(t, r, Resume(found));
            |q.windows| == |r.windows| && AllTurned(r, q, r.current) && Grew(r, q)
  {
    var id := r.current.value;
    var cap := GetK(t, r, r.windows[id].close);
    var r1 := (if cap.Some? then SettleSession(r, id, cap.value.k) else r).(current := None, at := Idle);
    SnapshotClosed(t, r);
    if cap.Some? { SnapshotTurned(r, id, cap.value.k); }
    PromoteGrew(t, r1);
    TurnedOn(r, r1, Promote(t, r1), r.current);
  }

  lemma CreatedTurned(t: Timing, r: Roll, ws: int)
    requires t.length > 0
    ensures AllTurned(r, Created(t, r, ws), None)
  {
  }

  /** Where a resumption after discovery creates a session. */
  function CreatedStart(t: Timing, r: Roll): int
    requires t.length > 0
  {
    WindowStart(r.now.Floor, t.length) + if r.at == InCreation then 0 else t.length
  }

  lemma CreationGrew(t: Timing, r: Roll)
    requires t.length > 0 && Inv(t, r) && r.at == InCreation
    ensures var q := Next(t, r, Resume(true));
            && |q.windows| == |r.windows| + 1 && q.windows[|r.windows|].start == CreatedStart(t, r)
            && AllTurned(r, q, None) && Grew(r, q)
  {
    var ws, idle := WindowStart(r.now.Floor, t.length), r.(at := Idle);
    StartAligned(r.now.Floor, t.length);
    CreatedInv(t, idle, ws);
    var created := Created(t, idle, ws);
    InstallGrew(t, created, |r.windows|, ws);
    assert Install(t, created, |r.windows|, ws) == Install(t, Created(t, r, ws), |r.windows|, ws).(at := Idle);
    CreatedTurned(t, idle, ws);
    CreatedThen(idle, created, Next(t, r, Resume(true)));
  }

  lemma CreatedThen(r: Roll, created: Roll, q: Roll)
    requires AllTurned(r, created, None) && |created.windows| == |r.windows| + 1 && AllTurned(created, q, None)
    ensures AllTurned(r, q, None)
  {
    forall i | 0 <= i < |r.windows| ensures Turned(r.windows[i], q.windows[i], None == Some(i)) {
      assert Turned(r.windows[i], created.windows[i], None == Some(i)) && Turned(created.windows[i], q.windows[i], None == Some(i));
    }
  }

  lemma OtherGrew(t: Timing, r: Roll, found: bool)
    requires t.length > 0 && Inv(t, r) && (r.at in {InTeardown, InPrefetch} || (r.at == InCreation && !found))
    ensures var q := Next(t, r, Resume(found));
            && |q.windows| == |r.windows| + (if r.at == InPrefetch && found then 1 else 0)
            && (|q.windows| > |r.windows| ==> q.windows[|r.windows|].start == CreatedStart(t, r))
            && AllTurned(r, q, None) && Grew(r, q)
  {
  }

  /** Every step turns the sessions as said, and adds at most one. */
  lemma StepGrew(t: Timing, r: Roll, step: Step)
    requires t.length > 0 && Inv(t, r) && Lawful(t, r, step)
    ensures var q := Next(t, r, step);
            && AllTurned(r, q, Concerned(t, r, step)) && Grew(r, q)
            && (|q.windows| > |r.windows| ==> q.windows[|r.windows|].start == CreatedStart(t, r) && Concerned(t, r, step) == None)
  {
    match step
    case Oracle(p) => PrintGrew(t, r, p);
    case Manage(now) => ManageGrew(t, r, now);
    case Resume(found) =>
      if r.at == InSnapshot {
        SnapshotGrew(t, r, found);
      } else if r.at == InCreation && found {
        CreationGrew(t, r);
      } else if r.at != Idle {
        OtherGrew(t, r, found);
      }
  }

  lemma GrewOrdered(r: Roll, q: Roll, c: Option<nat>)
    requires Ordered(r) && Grew(r, q) && AllTurned(r, q, c)
    ensures Ordered(q)
  {
    forall id | id in r.wasCurrent ensures id < |q.windows| && q.windows[id].start == r.windows[id].start {
      assert Turned(r.windows[id], q.windows[id], c == Some(id));
    }
  }
}
