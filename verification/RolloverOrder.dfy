/** What the rollover keeps at every step, whatever prints arrive at whichever await. */
module RolloverOrder {
  import opened Grid
  import opened KCapture
  import opened Sessions
  import opened Rollover

  // ---- one more print

  lemma OneMorePrint(t: Timing, prints: seq<OraclePrint>, p: OraclePrint)
    requires t.length > 0
    ensures var all, v := prints + [p], WindowOf(p, t.length);
            && Seen(all, t.length) == Seen(prints, t.length) + {v}
            && AfterPrints(all, t.length) == AfterPrint(AfterPrints(prints, t.length), p, t.length)
            && (Captures?(AfterPrints(prints, t.length), p, t.length) || v in Seen(prints, t.length))
  {
    assert (prints + [p])[..|prints|] == prints;
    StoredIsSeen(prints, t.length);
  }

  /** For a recent window the stored print is the earliest, before and after one more print. */
  lemma RecentPrint(t: Timing, prints: seq<OraclePrint>, p: OraclePrint, ws: int)
    requires t.length > 0 && Recent(prints + [p], ws, t.length)
    ensures Recent(prints, ws, t.length)
    ensures Stored(AfterPrints(prints, t.length), ws) == Earliest(prints, ws, t.length)
    ensures Earliest(prints + [p], ws, t.length)
            == if WindowOf(p, t.length) == ws && Captures?(AfterPrints(prints, t.length), p, t.length)
               then Some(Capture(p.value, p.ts)) else Earliest(prints, ws, t.length)
  {
    assert (prints + [p])[..|prints|] == prints;
    RecentBefore(prints + [p], ws, t.length);
    StoresEarliest(prints, ws, t.length);
  }

  /** What a print can do to a session. */
  predicate Touched(r: Roll, q: Roll, i: nat, ws: int)
    requires i < |r.windows| == |q.windows|
  {
    var w, x := r.windows[i], q.windows[i];
    && x.start == w.start && x.close == w.close
    && (x.state == w.state || (w.state == Settling && x.state == Done && ws in r.settling && r.settling[ws] == i))
    && (x.k == w.k || (Some(i) in {r.current, r.next} && w.start == ws && x.k.Some?))
  }

  lemma GiveTouches(r: Roll, id: Option<nat>, ws: int, cap: Capture, i: nat)
    requires Known(r, id) && i < |r.windows|
    ensures var q := GiveK(r, id, ws, cap);
            && q == r.(windows := q.windows) && |q.windows| == |r.windows|
            && q.windows[i] == (if Some(i) == id && r.windows[i].start == ws then r.windows[i].SetK(cap) else r.windows[i])
  {
  }

  lemma SettleTouches(r: Roll, id: nat, price: real, i: nat)
    requires id < |r.windows| && i < |r.windows|
    ensures var q := SettleSession(r, id, price);
            && q == r.(windows := q.windows, settling := q.settling) && |q.windows| == |r.windows|
            && (q.settling == r.settling || q.settling == r.settling - {r.windows[id].close})
            && q.windows[i].k == r.windows[i].k && q.windows[i].start == r.windows[i].start
            && q.windows[i].close == r.windows[i].close
            && (q.windows[i].state == r.windows[i].state
                || (i == id && r.windows[i].state == Settling && q.windows[i].state == Done))
            && (i == id && r.windows[i].k.Some? ==> q.windows[i].state != Settling)
  {
  }

  predicate OnlyWindows(r: Roll, q: Roll, p: OraclePrint, ws: int) {
    && q == r.(windows := q.windows, settling := q.settling, prints := r.prints + [p])
    && |q.windows| == |r.windows|
    && (q.settling == r.settling || q.settling == r.settling - {ws})
  }

  lemma PrintTouches(t: Timing, r: Roll, p: OraclePrint, i: nat)
    requires t.length > 0 && IdsOk(r) && i < |r.windows|
    requires forall close <- r.settling :: r.windows[r.settling[close]].close == close
    ensures var q, ws := OnPrint(t, r, p), WindowOf(p, t.length);
            OnlyWindows(r, q, p, ws) && Touched(r, q, i, ws)
  {
    var ws, cap := WindowOf(p, t.length), Capture(p.value, p.ts);
    if Captures?(AfterPrints(r.prints, t.length), p, t.length) {
      var after := r.(prints := r.prints + [p]);
      var g1 := GiveK(after, r.current, ws, cap);
      var g2 := GiveK(g1, r.next, ws, cap);
      GiveTouches(after, r.current, ws, cap, i);
      GiveTouches(g1, r.next, ws, cap, i);
      if ws in r.settling {
        var id := r.settling[ws];
        GiveTouches(after, r.current, ws, cap, id);
        GiveTouches(g1, r.next, ws, cap, id);
        SettleTouches(g2, id, cap.k, i);
      }
    }
  }

  /** A session waiting for the boundary that has just been captured is settled on the spot. */
  lemma PrintSettles(t: Timing, r: Roll, p: OraclePrint, i: nat)
    requires t.length > 0 && IdsOk(r) && i < |r.windows|
    requires var ws := WindowOf(p, t.length);
             && ws in r.settling && r.settling[ws] == i && ws !in Seen(r.prints, t.length)
             && r.windows[i].k.Some? && Some(i) !in {r.current, r.next}
    ensures OnPrint(t, r, p).windows[i].state != Settling
  {
    var ws, cap := WindowOf(p, t.length), Capture(p.value, p.ts);
    StoredIsSeen(r.prints, t.length);
    var after := r.(prints := r.prints + [p]);
    var g1 := GiveK(after, r.current, ws, cap);
    GiveTouches(after, r.current, ws, cap, i);
    GiveTouches(g1, r.next, ws, cap, i);
    SettleTouches(GiveK(g1, r.next, ws, cap), i, cap.k, i);
  }

  /** The current and the next session take every capture of their window. */
  lemma PrintGives(t: Timing, r: Roll, p: OraclePrint, id: Option<nat>)
    requires t.length > 0 && IdsOk(r) && id.Some? && id in {r.current, r.next} && r.current != r.next
    ensures var ws, w := WindowOf(p, t.length), r.windows[id.value];
            id.value < |OnPrint(t, r, p).windows|
            && OnPrint(t, r, p).windows[id.value].k
               == (if w.start == ws && Captures?(AfterPrints(r.prints, t.length), p, t.length)
                   then w.SetK(Capture(p.value, p.ts)).k else w.k)
  {
    var ws, cap := WindowOf(p, t.length), Capture(p.value, p.ts);
    if Captures?(AfterPrints(r.prints, t.length), p, t.length) {
      var after := r.(prints := r.prints + [p]);
      var g1 := GiveK(after, r.current, ws, cap);
      GiveTouches(after, r.current, ws, cap, id.value);
      GiveTouches(g1, r.next, ws, cap, id.value);
      if ws in r.settling { SettleTouches(GiveK(g1, r.next, ws, cap), r.settling[ws], cap.k, id.value); }
    }
  }

  lemma PrintAgrees(t: Timing, r: Roll, p: OraclePrint, id: Option<nat>)
    requires t.length > 0 && IdsOk(r) && id.Some? && id in {r.current, r.next} && r.current != r.next
    requires Agrees(t, r, id)
    requires var q := OnPrint(t, r, p);
             |q.windows| == |r.windows| && q.prints == r.prints + [p] && q.windows[id.value].start == r.windows[id.value].start
    ensures Agrees(t, OnPrint(t, r, p), id)
  {
    var ws := r.windows[id.value].start;
    if Recent(r.prints + [p], ws, t.length) {
      RecentPrint(t, r.prints, p, ws);
      PrintGives(t, r, p, id);
    }
  }

  lemma PrintHanded(t: Timing, r: Roll, p: OraclePrint, i: nat)
    requires t.length > 0 && IdsOk(r) && i < |r.windows| && Handed(t, r, i) && Some(i) !in {r.current, r.next}
    requires var q := OnPrint(t, r, p); OnlyWindows(r, q, p, WindowOf(p, t.length)) && Touched(r, q, i, WindowOf(p, t.length))
    ensures Handed(t, OnPrint(t, r, p), i)
  {
    var q, ws := OnPrint(t, r, p), WindowOf(p, t.length);
    OneMorePrint(t, r.prints, p);
    if q.windows[i].state == Settling && q.windows[i].k.Some? && r.windows[i].close == ws {
      PrintSettles(t, r, p, i);
    }
  }

  lemma PrintWindows(t: Timing, r: Roll, p: OraclePrint)
    requires t.length > 0 && Inv(t, r)
    ensures var q := OnPrint(t, r, p); IdsOk(q) && WindowsOk(t, q) && NextOk(q) && CurrentOk(t, q)
  {
    var q, v := OnPrint(t, r, p), WindowOf(p, t.length);
    OneMorePrint(t, r.prints, p);
    assert OnlyWindows(r, q, p, v) by { if r.windows == [] { NoWindows(t, r, p); } else { PrintTouches(t, r, p, 0); } }
    forall w | w in q.windows
      ensures w.start % t.length == 0 && w.close == w.start + t.length && (w.k.Some? ==> w.start in Seen(q.prints, t.length))
    {
      var i :| 0 <= i < |q.windows| && q.windows[i] == w;
      PrintTouches(t, r, p, i);
      assert r.windows[i] in r.windows;
    }
    if r.current.Some? { PrintTouches(t, r, p, r.current.value); }
    if r.next.Some? { PrintTouches(t, r, p, r.next.value); }
  }

  lemma NoWindows(t: Timing, r: Roll, p: OraclePrint)
    requires t.length > 0 && IdsOk(r) && r.windows == []
    ensures OnlyWindows(r, OnPrint(t, r, p), p, WindowOf(p, t.length))
  {
    assert r.current == None && r.next == None;
  }

  lemma PrintPast(t: Timing, r: Roll, p: OraclePrint)
    requires t.length > 0 && Inv(t, r)
    ensures var q := OnPrint(t, r, p); IdsOk(q) && PastOk(t, q) && FiledOk(q)
  {
    var q, v := OnPrint(t, r, p), WindowOf(p, t.length);
    PrintWindows(t, r, p);
    assert OnlyWindows(r, q, p, v) by { if r.windows == [] { NoWindows(t, r, p); } else { PrintTouches(t, r, p, 0); } }
    forall id | id in r.wasCurrent
      ensures q.windows[id].start == r.windows[id].start && q.windows[id].close == r.windows[id].close
      ensures Some(id) != r.current ==> Handed(t, q, id)
    {
      PrintTouches(t, r, p, id);
      if Some(id) != r.current { PrintHanded(t, r, p, id); }
    }
  }

  lemma PrintInv(t: Timing, r: Roll, p: OraclePrint)
    requires t.length > 0 && Inv(t, r)
    ensures Inv(t, OnPrint(t, r, p))
  {
    PrintWindows(t, r, p);
    PrintPast(t, r, p);
    if r.current.Some? {
      PrintTouches(t, r, p, r.current.value);
      PrintAgrees(t, r, p, r.current);
    }
    if r.next.Some? {
      PrintTouches(t, r, p, r.next.value);
      PrintAgrees(t, r, p, r.next);
    }
  }

  // ---- manage_sessions

  lemma PrefetchInv(t: Timing, r: Roll)
    requires t.length > 0 && Inv(t, r) && r.at == Idle
    ensures Inv(t, Prefetch(t, r))
  {
  }

  /** Installed sessions are newer than every session that was current before. */
  lemma InstallFiled(t: Timing, r: Roll, id: nat, ws: int)
    requires t.length > 0 && Inv(t, r) && r.current == None && r.at == Idle && id < |r.windows|
    requires ws == WindowStart(r.now.Floor, t.length) && r.windows[id].start == ws && id !in r.wasCurrent
    requires r.windows[id].state == Pending
    ensures var q := Install(t, r, id, ws); IdsOk(q) && PastOk(t, q) && FiledOk(q)
  {
    var q := Install(t, r, id, ws);
    WindowContains(r.now.Floor, t.length, ws);
    forall j | j in r.wasCurrent ensures j != id && r.windows[j].start != ws && Handed(t, r, j) {
      assert Handed(t, r, j);
      assert r.windows[j] in r.windows;
    }
  }

  lemma InstallWindows(t: Timing, r: Roll, id: nat, ws: int)
    requires t.length > 0 && Inv(t, r) && id < |r.windows| && r.windows[id].start == ws
    requires r.windows[id].state == Pending
    ensures var q := Install(t, r, id, ws);
            && WindowsOk(t, q) && !q.raised && |q.windows| == |r.windows| && q.windows[id].state == Active
            && q.windows[id].start == ws && q.windows[id].k == (var k := GetK(t, r, ws);
                 if k.Some? then r.windows[id].SetK(k.value).k else r.windows[id].k)
  {
    var q := Install(t, r, id, ws);
    StoredIsSeen(r.prints, t.length);
    assert r.windows[id] in r.windows;
    forall w | w in q.windows
      ensures w.start % t.length == 0 && w.close == w.start + t.length && (w.k.Some? ==> w.start in Seen(q.prints, t.length))
    {
      var i :| 0 <= i < |q.windows| && q.windows[i] == w;
      assert r.windows[i] in r.windows;
    }
  }

  lemma InstallInv(t: Timing, r: Roll, id: nat, ws: int)
    requires t.length > 0 && Inv(t, r) && r.current == None && r.at == Idle && id < |r.windows|
    requires ws == WindowStart(r.now.Floor, t.length) && r.windows[id].start == ws && id !in r.wasCurrent
    requires r.windows[id].state == Pending && Agrees(t, r, Some(id))
    ensures Inv(t, Install(t, r, id, ws))
  {
    WindowContains(r.now.Floor, t.length, ws);
    InstallFiled(t, r, id, ws);
    InstallWindows(t, r, id, ws);
    if Recent(r.prints, ws, t.length) { StoresEarliest(r.prints, ws, t.length); }
  }

  lemma PromoteInv(t: Timing, r: Roll)
    requires t.length > 0 && Inv(t, r) && r.at == Idle
    requires r.current.Some? ==> r.now < r.windows[r.current.value].close as real
    ensures Inv(t, Promote(t, r))
  {
    var ws := WindowStart(r.now.Floor, t.length);
    if r.current.Some? {
      var w := r.windows[r.current.value];
      assert w in r.windows;
      WindowContains(r.now.Floor, t.length, w.start);
      PrefetchInv(t, r);
    } else if r.next.Some? && r.windows[r.next.value].start == ws {
      InstallInv(t, r, r.next.value, ws);
      PrefetchInv(t, Install(t, r, r.next.value, ws).(at := Idle));
    }
  }

  lemma LaterInv(t: Timing, r: Roll, now: real)
    requires t.length > 0 && Inv(t, r) && now >= r.now
    ensures Inv(t, r.(now := now))
  {
    var q := r.(now := now);
    assert r.now.Floor <= now.Floor;
    forall id | id in r.wasCurrent && Some(id) != r.current ensures Handed(t, q, id) { assert Handed(t, r, id); }
  }

  /** The current session at its close. */
  lemma TeardownInv(t: Timing, r: Roll)
    requires t.length > 0 && Inv(t, r) && r.at == Idle && r.current.Some?
    requires r.now >= r.windows[r.current.value].close as real
    ensures Inv(t, Change(r, r.current.value, Closing).(at := InTeardown))
  {
    var id := r.current.value;
    var q := Change(r, id, Closing).(at := InTeardown);
    ChangedWindows(t, r, q, id);
    forall i | i in r.wasCurrent && i != id ensures Handed(t, q, i) { assert Handed(t, r, i); }
  }

  /** A change of state alone. */
  lemma ChangedWindows(t: Timing, r: Roll, q: Roll, id: nat)
    requires t.length > 0 && WindowsOk(t, r) && id < |r.windows| && q.prints == r.prints
    requires |q.windows| == |r.windows| && q.windows == r.windows[id := r.windows[id].(state := q.windows[id].state)]
    ensures WindowsOk(t, q)
  {
    assert r.windows[id] in r.windows;
    forall w | w in q.windows
      ensures w.start % t.length == 0 && w.close == w.start + t.length && (w.k.Some? ==> w.start in Seen(q.prints, t.length))
    {
      var i :| 0 <= i < |q.windows| && q.windows[i] == w;
      assert r.windows[i] in r.windows;
    }
  }

  lemma ManageInv(t: Timing, r: Roll, now: real)
    requires t.length > 0 && Inv(t, r) && now >= r.now
    ensures Inv(t, Next(t, r, Manage(now)))
  {
    var r1 := r.(now := now);
    LaterInv(t, r, now);
    if r.at == Idle {
      if r.current.Some? && now >= r.windows[r.current.value].close as real {
        TeardownInv(t, r1);
      } else {
        PromoteInv(t, r1);
      }
    }
  }

  lemma DifferentCloses(t: Timing, r: Roll, i: nat, j: nat)
    requires t.length > 0 && IdsOk(r) && WindowsOk(t, r) && PastOk(t, r) && FiledOk(r)
    requires i in r.wasCurrent && j in r.wasCurrent && i != j
    ensures r.windows[i].close != r.windows[j].close
  {
    assert r.windows[i] in r.windows && r.windows[j] in r.windows;
  }

  lemma ResumeTeardown(t: Timing, r: Roll, found: bool)
    requires t.length > 0 && Inv(t, r) && r.at == InTeardown
    ensures Inv(t, Next(t, r, Resume(found)))
  {
    var id, q := r.current.value, Next(t, r, Resume(found));
    ChangedWindows(t, r, q, id);
    forall i | i in r.wasCurrent && i != id ensures Handed(t, q, i) {
      assert Handed(t, r, i);
      DifferentCloses(t, r, i, id);
    }
  }

  /** After the snapshot the closed session is done, or waits for a print not yet seen, or can never settle. */
  lemma HandedOver(t: Timing, r: Roll)
    requires t.length > 0 && Inv(t, r) && r.at == InSnapshot
    requires Recent(r.prints, r.windows[r.current.value].close, t.length)
    ensures var id := r.current.value;
            var cap := GetK(t, r, r.windows[id].close);
            var q := if cap.Some? then SettleSession(r, id, cap.value.k) else r;
            id < |q.windows| && Handed(t, q, id)
  {
    var close := r.windows[r.current.value].close;
    StoresEarliest(r.prints, close, t.length);
    EarliestIsSeen(r.prints, close, t.length);
  }

  lemma SnapshotWindows(t: Timing, r: Roll, q: Roll, id: nat, price: real)
    requires t.length > 0 && WindowsOk(t, r) && id < |r.windows| && q == SettleSession(r, id, price)
    ensures WindowsOk(t, q)
  {
    assert r.windows[id] in r.windows;
    forall w | w in q.windows
      ensures w.start % t.length == 0 && w.close == w.start + t.length && (w.k.Some? ==> w.start in Seen(q.prints, t.length))
    {
      var i :| 0 <= i < |q.windows| && q.windows[i] == w;
      SettleTouches(r, id, price, i);
      assert r.windows[i] in r.windows;
    }
  }

  /** Settling the closed session leaves every other session as it is, and its filing too. */
  lemma SnapshotOthers(t: Timing, r: Roll, price: real)
    requires t.length > 0 && Inv(t, r) && r.at == InSnapshot
    ensures var id := r.current.value; var q := SettleSession(r, id, price);
            && q == r.(windows := q.windows, settling := q.settling) && IdsOk(q)
            && (forall i :: 0 <= i < |r.windows| && i != id ==> q.windows[i] == r.windows[i])
            && (forall i <- r.wasCurrent :: i != id ==> i < |q.windows| && Handed(t, q, i))
            && FiledOk(q)
  {
    var id := r.current.value;
    var q := SettleSession(r, id, price);
    SettleTouches(r, id, price, id);
    forall i | i in r.wasCurrent && i != id ensures i < |q.windows| && Handed(t, q, i) {
      assert Handed(t, r, i);
      DifferentCloses(t, r, i, id);
    }
  }

  lemma SnapshotClosed(t: Timing, r: Roll)
    requires t.length > 0 && Inv(t, r) && r.at == InSnapshot
    requires Recent(r.prints, r.windows[r.current.value].close, t.length)
    ensures var id := r.current.value;
            var cap := GetK(t, r, r.windows[id].close);
            var q := if cap.Some? then SettleSession(r, id, cap.value.k) else r;
            Inv(t, q.(current := None, at := Idle))
  {
    var id := r.current.value;
    var cap := GetK(t, r, r.windows[id].close);
    HandedOver(t, r);
    if cap.Some? {
      SnapshotOthers(t, r, cap.value.k);
      SnapshotWindows(t, r, SettleSession(r, id, cap.value.k), id, cap.value.k);
    }
  }

  lemma ResumeSnapshot(t: Timing, r: Roll, found: bool)
    requires t.length > 0 && Inv(t, r) && r.at == InSnapshot
    requires Recent(r.prints, r.windows[r.current.value].close, t.length)
    ensures Inv(t, Next(t, r, Resume(found)))
  {
    var id := r.current.value;
    var cap := GetK(t, r, r.windows[id].close);
    SnapshotClosed(t, r);
    PromoteInv(t, (if cap.Some? then SettleSession(r, id, cap.value.k) else r).(current := None, at := Idle));
  }

  /** A new session starts with what has been captured for its window. */
  lemma CreatedInv(t: Timing, r: Roll, ws: int)
    requires t.length > 0 && Inv(t, r) && ws % t.length == 0
    ensures Inv(t, Created(t, r, ws)) && Agrees(t, Created(t, r, ws), Some(|r.windows|))
  {
    var q := Created(t, r, ws);
    StoredIsSeen(r.prints, t.length);
    if Recent(r.prints, ws, t.length) { StoresEarliest(r.prints, ws, t.length); }
    forall id | id in r.wasCurrent && Some(id) != r.current ensures Handed(t, q, id) { assert Handed(t, r, id); }
  }

  lemma StartAligned(now: int, length: int)
    requires length > 0
    ensures WindowStart(now, length) % length == 0 && (WindowStart(now, length) + length) % length == 0
  {
    StartIs(now, length);
    MultiplesAlign(now / length, length);
    MultiplesAlign(now / length + 1, length);
    assert length * (now / length + 1) == length * (now / length) + length;
  }

  lemma ResumeCreation(t: Timing, r: Roll, found: bool)
    requires t.length > 0 && Inv(t, r) && r.at == InCreation
    ensures Inv(t, Next(t, r, Resume(found)))
  {
    var ws, idle := WindowStart(r.now.Floor, t.length), r.(at := Idle);
    if found {
      StartAligned(r.now.Floor, t.length);
      CreatedInv(t, idle, ws);
      var q := Created(t, idle, ws);
      InstallInv(t, q, |r.windows|, ws);
      assert Install(t, q, |r.windows|, ws) == Install(t, Created(t, r, ws), |r.windows|, ws).(at := Idle);
      PrefetchInv(t, Install(t, q, |r.windows|, ws));
    } else {
      PrefetchInv(t, idle);
    }
  }

  lemma ResumePrefetch(t: Timing, r: Roll, found: bool)
    requires t.length > 0 && Inv(t, r) && r.at == InPrefetch
    ensures Inv(t, Next(t, r, Resume(found)))
  {
    StartAligned(r.now.Floor, t.length);
    if found { CreatedInv(t, r, WindowStart(r.now.Floor, t.length) + t.length); }
  }

  lemma StepInv(t: Timing, r: Roll, step: Step)
    requires t.length > 0 && Inv(t, r) && Lawful(t, r, step)
    ensures Inv(t, Next(t, r, step))
  {
    match step
    case Oracle(p) => PrintInv(t, r, p);
    case Manage(now) => ManageInv(t, r, now);
    case Resume(found) =>
      match r.at
      case Idle =>
      case InTeardown => ResumeTeardown(t, r, found);
      case InSnapshot => ResumeSnapshot(t, r, found);
      case InCreation => ResumeCreation(t, r, found);
      case InPrefetch => ResumePrefetch(t, r, found);
  }

  function Run(t: Timing, r: Roll, steps: seq<Step>): Roll
    requires t.length > 0
    decreases steps
  {
    if steps == [] then r else Run(t, Next(t, r, steps[0]), steps[1..])
  }

  predicate LawfulRun(t: Timing, r: Roll, steps: seq<Step>)
    requires t.length > 0
    decreases steps
  {
    steps != [] ==> Lawful(t, r, steps[0]) && LawfulRun(t, Next(t, r, steps[0]), steps[1..])
  }

  lemma {:induction false} RunInv(t: Timing, r: Roll, steps: seq<Step>)
    requires t.length > 0 && Inv(t, r) && LawfulRun(t, r, steps)
    ensures Inv(t, Run(t, r, steps))
    decreases steps
  {
    if steps != [] {
      StepInv(t, r, steps[0]);
      RunInv(t, Next(t, r, steps[0]), steps[1..]);
    }
  }

  /** The session that closes where the current one starts, if it ever was current, is done or never had a Price
      to Beat, whenever the current one is active and has its own: no boundary is missed between the hand-over to
      settlement and the look-up, whichever await the print arrives at. */
  lemma RolloverOrdering(t: Timing, steps: seq<Step>, prev: nat)
    requires t.length > 0 && LawfulRun(t, START, steps)
    requires var r := Run(t, START, steps);
             && r.current.Some? && prev in r.wasCurrent && prev < |r.windows| && r.current.value < |r.windows|
             && r.windows[r.current.value].state == Active && r.windows[r.current.value].k.Some?
             && r.windows[prev].close == r.windows[r.current.value].start
    ensures var r := Run(t, START, steps); r.windows[prev].state == Done || r.windows[prev].k.None?
  {
    var r := Run(t, START, steps);
    RunInv(t, START, steps);
    assert r.windows[r.current.value] in r.windows && r.windows[prev] in r.windows;
    assert Handed(t, r, prev);
  }

  /** No session transition is ever illegal, and the current and the next session's Price to Beat is the earliest
      print of their window, as long as fewer than 16 newer windows have been seen. */
  lemma PriceToBeatAgrees(t: Timing, steps: seq<Step>, id: nat)
    requires t.length > 0 && LawfulRun(t, START, steps)
    requires var r := Run(t, START, steps); Some(id) in {r.current, r.next} && id < |r.windows|
    ensures var r := Run(t, START, steps);
            && !r.raised
            && (Recent(r.prints, r.windows[id].start, t.length) ==>
                  && r.windows[id].k == Earliest(r.prints, r.windows[id].start, t.length)
                  && EarliestOf(r.prints, r.windows[id].start, t.length, r.windows[id].k))
  {
    RunInv(t, START, steps);
    EarliestIs(Run(t, START, steps).prints, Run(t, START, steps).windows[id].start, t.length);
  }
}
