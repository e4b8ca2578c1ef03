/** How sessions are resolved: against a print of the window that opens where they close, once, and for good. */
module RolloverClose {
  import opened Grid
  import opened Ledger
  import opened KCapture
  import opened Sessions
  import opened Rollover
  import opened RolloverOrder

  /** The close price is the value of a print of the window that starts at the close: the earliest received so far,
      while fewer than 16 newer windows have been seen. */
  ghost predicate ByPrint(t: Timing, w: Window, prints: seq<OraclePrint>)
    requires t.length > 0
  {
    && w.closePrice.Some? && w.outcome.Some?
    && (exists p <- prints :: PrintedIn(p, w.close, t.length) && p.value == w.closePrice.value)
    && (Recent(prints, w.close, t.length) ==> AtEarliest(w, Earliest(prints, w.close, t.length)))
  }

  /** Up if the close is at or above the Price to Beat, down if it is below. */
  predicate Resolved(w: Window) {
    && w.k.Some? && w.outcome.Some? && w.closePrice.Some?
    && (w.outcome == Some(Up) <==> w.closePrice.value >= w.k.value.k)
  }

  predicate AtEarliest(w: Window, e: Option<Capture>) {
    e.Some? && w.closePrice == Some(e.value.k)
  }

  /** A done session is left alone, and one that becomes done is resolved by a print. */
  ghost predicate Advances(t: Timing, w: Window, x: Window, prints: seq<OraclePrint>)
    requires t.length > 0
  {
    && x.close == w.close
    && (w.state == Done ==> x.state == Done && x.closePrice == w.closePrice && x.outcome == w.outcome)
    && (w.state != Done && x.state == Done ==> ByPrint(t, x, prints) && Resolved(x))
  }

  lemma {:induction false} StoredIsPrint(t: Timing, prints: seq<OraclePrint>, ws: int)
    requires t.length > 0 && Stored(AfterPrints(prints, t.length), ws).Some?
    ensures exists p <- prints :: PrintedIn(p, ws, t.length) && p.value == Stored(AfterPrints(prints, t.length), ws).value.k
  {
    if prints != [] {
      var init, p := prints[..|prints| - 1], prints[|prints| - 1];
      var m := AfterPrints(init, t.length);
      assert prints == init + [p] && p in prints;
      WindowOfMeans(p, ws, t.length);
      if !(Captures?(m, p, t.length) && WindowOf(p, t.length) == ws) {
        StoredIsPrint(t, init, ws);
        var q :| q in init && PrintedIn(q, ws, t.length) && q.value == Stored(m, ws).value.k;
        assert q in prints;
      }
    }
  }

  lemma SettleAdvances(t: Timing, r: Roll, id: nat, price: real, prints: seq<OraclePrint>, i: nat)
    requires t.length > 0 && id < |r.windows| && i < |r.windows|
    requires exists p <- prints :: PrintedIn(p, r.windows[id].close, t.length) && p.value == price
    requires var e := Earliest(prints, r.windows[id].close, t.length);
             Recent(prints, r.windows[id].close, t.length) ==> e.Some? && e.value.k == price
    ensures Advances(t, r.windows[i], SettleSession(r, id, price).windows[i], prints)
  {
  }

  lemma PrintAdvances(t: Timing, r: Roll, p: OraclePrint, i: nat)
    requires t.length > 0 && Inv(t, r) && i < |r.windows|
    ensures i < |OnPrint(t, r, p).windows|
    ensures Advances(t, r.windows[i], OnPrint(t, r, p).windows[i], r.prints + [p])
  {
    var ws, cap := WindowOf(p, t.length), Capture(p.value, p.ts);
    PrintTouches(t, r, p, i);
    if Captures?(AfterPrints(r.prints, t.length), p, t.length) {
      var after := r.(prints := r.prints + [p]);
      var g1 := GiveK(after, r.current, ws, cap);
      var g2 := GiveK(g1, r.next, ws, cap);
      GiveTouches(after, r.current, ws, cap, i);
      GiveTouches(g1, r.next, ws, cap, i);
      if ws in r.settling {
        var id := r.settling[ws];
        GiveTouches(after, r.current, ws, cap, id);
        GiveTouches(g1, r.next, ws, cap, id);
        assert p in r.prints + [p];
        WindowOfMeans(p, ws, t.length);
        if Recent(r.prints + [p], ws, t.length) { RecentPrint(t, r.prints, p, ws); }
        SettleAdvances(t, g2, id, cap.k, r.prints + [p], i);
      }
    }
  }

  /** Neither promotion nor prefetching resolves a session. */
  predicate Unresolved(w: Window, x: Window) {
    x.close == w.close && x.closePrice == w.closePrice && x.outcome == w.outcome && (x.state == Done <==> w.state == Done)
  }

  lemma InstallUnresolved(t: Timing, r: Roll, id: nat, ws: int, i: nat)
    requires t.length > 0 && id < |r.windows| && i < |r.windows|
    ensures |Install(t, r, id, ws).windows| == |r.windows| && Unresolved(r.windows[i], Install(t, r, id, ws).windows[i])
    ensures Install(t, r, id, ws).prints == r.prints
  {
  }

  lemma PromoteUnresolved(t: Timing, r: Roll, i: nat)
    requires t.length > 0 && IdsOk(r) && i < |r.windows|
    ensures |Promote(t, r).windows| == |r.windows| && Unresolved(r.windows[i], Promote(t, r).windows[i])
    ensures Promote(t, r).prints == r.prints
  {
    if r.next.Some? { InstallUnresolved(t, r, r.next.value, WindowStart(r.now.Floor, t.length), i); }
  }

  lemma ManageAdvances(t: Timing, r: Roll, now: real, i: nat)
    requires t.length > 0 && Inv(t, r) && i < |r.windows|
    ensures var q := Next(t, r, Manage(now));
            i < |q.windows| && q.prints == r.prints && Advances(t, r.windows[i], q.windows[i], q.prints)
  {
    PromoteUnresolved(t, r.(now := now), i);
  }

  lemma SnapshotAdvances(t: Timing, r: Roll, found: bool, i: nat)
    requires t.length > 0 && Inv(t, r) && r.at == InSnapshot && i < |r.windows|
    requires Recent(r.prints, r.windows[r.current.value].close, t.length)
    ensures var q := Next(t, r, Resume(found));
            i < |q.windows| && q.prints == r.prints && Advances(t, r.windows[i], q.windows[i], q.prints)
  {
    var id := r.current.value;
    var cap := GetK(t, r, r.windows[id].close);
    var r1 := if cap.Some? then SettleSession(r, id, cap.value.k) else r;
    if cap.Some? {
      StoredIsPrint(t, r.prints, r.windows[id].close);
      StoresEarliest(r.prints, r.windows[id].close, t.length);
      SettleAdvances(t, r, id, cap.value.k, r.prints, i);
      SettleTouches(r, id, cap.value.k, i);
    }
    SnapshotClosed(t, r);
    PromoteUnresolved(t, r1.(current := None, at := Idle), i);
  }

  lemma CreationAdvances(t: Timing, r: Roll, found: bool, i: nat)
    requires t.length > 0 && Inv(t, r) && r.at in {InTeardown, InCreation, InPrefetch} && i < |r.windows|
    ensures var q := Next(t, r, Resume(found));
            i < |q.windows| && q.prints == r.prints && Advances(t, r.windows[i], q.windows[i], q.prints)
  {
    if r.at == InCreation && found {
      var ws := WindowStart(r.now.Floor, t.length);
      InstallUnresolved(t, Created(t, r, ws), |r.windows|, ws, i);
    }
  }

  lemma StepAdvances(t: Timing, r: Roll, step: Step, i: nat)
    requires t.length > 0 && Inv(t, r) && Lawful(t, r, step) && i < |r.windows|
    ensures var q := Next(t, r, step);
            i < |q.windows| && r.prints <= q.prints && Advances(t, r.windows[i], q.windows[i], q.prints)
  {
    match step
    case Oracle(p) => PrintAdvances(t, r, p, i);
    case Manage(now) => ManageAdvances(t, r, now, i);
    case Resume(found) =>
      if r.at == InSnapshot {
        SnapshotAdvances(t, r, found, i);
      } else if r.at != Idle {
        CreationAdvances(t, r, found, i);
      }
  }

  /** Once done, a session keeps its outcome and its close price whatever prints arrive later. */
  lemma {:induction false} DoneForGood(t: Timing, r: Roll, steps: seq<Step>, i: nat)
    requires t.length > 0 && Inv(t, r) && LawfulRun(t, r, steps) && i < |r.windows| && r.windows[i].state == Done
    ensures var q := Run(t, r, steps);
            && i < |q.windows| && q.windows[i].state == Done
            && q.windows[i].closePrice == r.windows[i].closePrice && q.windows[i].outcome == r.windows[i].outcome
    decreases steps
  {
    if steps != [] {
      StepInv(t, r, steps[0]);
      StepAdvances(t, r, steps[0], i);
      DoneForGood(t, Next(t, r, steps[0]), steps[1..], i);
    }
  }

  // ---- the step that resolves a session, and what later prints mean for it

  lemma StepKeepsOrCreates(t: Timing, r: Roll, step: Step)
    requires t.length > 0 && Inv(t, r) && Lawful(t, r, step)
    ensures var q := Next(t, r, step);
            && |r.windows| <= |q.windows| && r.prints <= q.prints
            && forall i :: |r.windows| <= i < |q.windows| ==> q.windows[i].state != Done
  {
    match step
    case Oracle(p) => if r.windows == [] { NoWindows(t, r, p); } else { PrintTouches(t, r, p, 0); }
    case Manage(now) =>
    case Resume(found) =>
      if r.at == InSnapshot {
        SnapshotAdvances(t, r, found, r.current.value);
        SnapshotSize(t, r, found);
      }
  }

  lemma SnapshotSize(t: Timing, r: Roll, found: bool)
    requires t.length > 0 && Inv(t, r) && r.at == InSnapshot
    requires Recent(r.prints, r.windows[r.current.value].close, t.length)
    ensures |Next(t, r, Resume(found)).windows| == |r.windows|
  {
    var id := r.current.value;
    var cap := GetK(t, r, r.windows[id].close);
    var r1 := if cap.Some? then SettleSession(r, id, cap.value.k) else r;
    if cap.Some? { SettleTouches(r, id, cap.value.k, id); }
    SnapshotClosed(t, r);
    PromoteUnresolved(t, r1.(current := None, at := Idle), id);
  }

  lemma {:induction false} RunPrints(t: Timing, r: Roll, steps: seq<Step>)
    requires t.length > 0 && Inv(t, r) && LawfulRun(t, r, steps)
    ensures r.prints <= Run(t, r, steps).prints
    decreases steps
  {
    if steps != [] {
      StepInv(t, r, steps[0]);
      StepKeepsOrCreates(t, r, steps[0]);
      RunPrints(t, Next(t, r, steps[0]), steps[1..]);
    }
  }

  predicate Undone(r: Roll, i: nat) {
    i < |r.windows| ==> r.windows[i].state != Done
  }

  /** Which step of a run makes a session done. */
  lemma {:induction false} SettlingStep(t: Timing, r: Roll, steps: seq<Step>, i: nat) returns (n: nat)
    requires t.length > 0 && Inv(t, r) && LawfulRun(t, r, steps) && Undone(r, i) && !Undone(Run(t, r, steps), i)
    ensures n < |steps| && SettlesAt(t, r, steps, i, n, Run(t, r, steps[..n]), Run(t, r, steps[..n + 1]))
    decreases steps
  {
    var q := Next(t, r, steps[0]);
    StepInv(t, r, steps[0]);
    StepKeepsOrCreates(t, r, steps[0]);
    if !Undone(q, i) {
      n := 0;
      FirstSteps(t, r, steps);
    } else {
      var m := SettlingStep(t, q, steps[1..], i);
      n := m + 1;
      RunPrefix(t, r, steps, m);
      RunPrefix(t, r, steps, m + 1);
      assert steps[n + 1..] == steps[1..][m + 1..];
    }
  }

  /** Step n of the run takes before to after, and makes session i done. */
  predicate SettlesAt(t: Timing, r: Roll, steps: seq<Step>, i: nat, n: nat, before: Roll, after: Roll)
    requires t.length > 0 && n < |steps|
  {
    && Inv(t, before) && Lawful(t, before, steps[n]) && after == Next(t, before, steps[n])
    && i < |before.windows| && Undone(before, i) && !Undone(after, i)
    && LawfulRun(t, after, steps[n + 1..]) && Run(t, r, steps) == Run(t, after, steps[n + 1..])
  }

  lemma FirstSteps(t: Timing, r: Roll, steps: seq<Step>)
    requires t.length > 0 && steps != []
    ensures Run(t, r, steps[..0]) == r && Run(t, r, steps[..1]) == Next(t, r, steps[0])
  {
    assert steps[..0] == [] && steps[..1][1..] == [];
  }

  lemma RunPrefix(t: Timing, r: Roll, steps: seq<Step>, m: nat)
    requires t.length > 0 && m < |steps|
    ensures Run(t, r, steps[..m + 1]) == Run(t, Next(t, r, steps[0]), steps[1..][..m])
  {
    assert steps[..m + 1][1..] == steps[1..][..m];
  }

  /** No print of a list is an older one of a window. */
  predicate NoneOlder(prints: seq<OraclePrint>, ws: int, ts: int, length: int)
    requires length > 0
  {
    forall p <- prints :: PrintedIn(p, ws, length) ==> p.ts >= ts
  }

  lemma {:induction false} EarliestStays(prints: seq<OraclePrint>, more: seq<OraclePrint>, ws: int, length: int)
    requires length > 0 && Earliest(prints, ws, length).Some?
    ensures var e, f := Earliest(prints, ws, length), Earliest(prints + more, ws, length);
            && f.Some? && f.value.ts <= e.value.ts
            && (NoneOlder(more, ws, e.value.ts, length) ==> f == e)
            && (!NoneOlder(more, ws, e.value.ts, length) ==> f.value.ts < e.value.ts)
    decreases more
  {
    if more == [] {
      assert prints + more == prints;
    } else {
      var init, p := more[..|more| - 1], more[|more| - 1];
      EarliestStays(prints, init, ws, length);
      assert (prints + more)[..|prints + more| - 1] == prints + init && more == init + [p];
      WindowOfMeans(p, ws, length);
    }
  }

  /** The session was resolved by the Price to Beat it had then. What it keeps until the end of the run, and whether the print it was resolved by is still the
      earliest of its window then. */
  ghost predicate ResolvedAt(t: Timing, after: Roll, end: Roll, i: nat)
    requires t.length > 0
  {
    && i < |after.windows| && i < |end.windows| && Resolved(after.windows[i])
    && end.windows[i].outcome == after.windows[i].outcome && end.windows[i].closePrice == after.windows[i].closePrice
    && after.prints <= end.prints && ByPrint(t, end.windows[i], after.prints)
    && var close := end.windows[i].close;
       var settled, last := Earliest(after.prints, close, t.length), Earliest(end.prints, close, t.length);
       Recent(after.prints, close, t.length) ==>
         && AtEarliest(end.windows[i], settled)
         && (last == settled <==> NoneOlder(end.prints[|after.prints|..], close, settled.value.ts, t.length))
  }

  lemma ResolvesThen(t: Timing, before: Roll, step: Step, rest: seq<Step>, i: nat)
    requires t.length > 0 && Inv(t, before) && Lawful(t, before, step) && i < |before.windows|
    requires Undone(before, i) && !Undone(Next(t, before, step), i) && LawfulRun(t, Next(t, before, step), rest)
    ensures var after := Next(t, before, step); ResolvedAt(t, after, Run(t, after, rest), i)
  {
    var after := Next(t, before, step);
    var end := Run(t, after, rest);
    StepInv(t, before, step);
    StepAdvances(t, before, step, i);
    DoneForGood(t, after, rest, i);
    RunPrints(t, after, rest);
    KeepsClose(t, after, rest, i);
    StillEarliest(t, after.prints, end.prints, end.windows[i].close);
  }

  lemma StillEarliest(t: Timing, prints: seq<OraclePrint>, all: seq<OraclePrint>, ws: int)
    requires t.length > 0 && prints <= all
    ensures var e := Earliest(prints, ws, t.length);
            e.Some? ==> (Earliest(all, ws, t.length) == e <==> NoneOlder(all[|prints|..], ws, e.value.ts, t.length))
  {
    assert all == prints + all[|prints|..];
    if Earliest(prints, ws, t.length).Some? { EarliestStays(prints, all[|prints|..], ws, t.length); }
  }

  /** A session is resolved by one step, against the earliest print its closing window had by then, and keeps that
      price; and that print is still the earliest at the end exactly when no print of the window that came later is
      older than it. */
  lemma ClosesAtEarliest(t: Timing, steps: seq<Step>, i: nat) returns (n: nat)
    requires t.length > 0 && LawfulRun(t, START, steps) && !Undone(Run(t, START, steps), i)
    ensures n < |steps| && Undone(Run(t, START, steps[..n]), i) && !Undone(Run(t, START, steps[..n + 1]), i)
    ensures ResolvedAt(t, Run(t, START, steps[..n + 1]), Run(t, START, steps), i)
  {
    n := SettlingStep(t, START, steps, i);
    ResolvesThen(t, Run(t, START, steps[..n]), steps[n], steps[n + 1..], i);
  }

  lemma {:induction false} KeepsClose(t: Timing, r: Roll, steps: seq<Step>, i: nat)
    requires t.length > 0 && Inv(t, r) && LawfulRun(t, r, steps) && i < |r.windows|
    ensures i < |Run(t, r, steps).windows| && Run(t, r, steps).windows[i].close == r.windows[i].close
    decreases steps
  {
    if steps != [] {
      StepInv(t, r, steps[0]);
      StepAdvances(t, r, steps[0], i);
      KeepsClose(t, Next(t, r, steps[0]), steps[1..], i);
    }
  }

  lemma {:induction false} RecentEarlier(prints: seq<OraclePrint>, more: seq<OraclePrint>, ws: int, length: int)
    requires length > 0 && Recent(prints + more, ws, length)
    ensures Recent(prints, ws, length)
    decreases more
  {
    if more == [] {
      assert prints + more == prints;
    } else {
      RecentBefore(prints + more, ws, length);
      assert (prints + more)[..|prints + more| - 1] == prints + more[..|more| - 1];
      RecentEarlier(prints, more[..|more| - 1], ws, length);
    }
  }

  /** A session and its successor are judged by the same print, exactly when no older one came after the settlement. */
  lemma CloseMeetsNextK(t: Timing, steps: seq<Step>, i: nat, j: nat) returns (n: nat)
    requires t.length > 0 && LawfulRun(t, START, steps)
    requires var end := Run(t, START, steps);
             && !Undone(end, i) && Some(j) in {end.current, end.next} && j < |end.windows|
             && end.windows[j].start == end.windows[i].close && Recent(end.prints, end.windows[i].close, t.length)
    ensures n < |steps|
    ensures var after, end := Run(t, START, steps[..n + 1]), Run(t, START, steps);
            && !Undone(after, i) && after.prints <= end.prints
            && var close := end.windows[i].close; var settled := Earliest(after.prints, close, t.length);
               && AtEarliest(end.windows[i], settled)
               && (end.windows[j].k == settled <==>
                     NoneOlder(end.prints[|after.prints|..], close, settled.value.ts, t.length))
  {
    n := ClosesAtEarliest(t, steps, i);
    var after, end := Run(t, START, steps[..n + 1]), Run(t, START, steps);
    assert end.prints == after.prints + end.prints[|after.prints|..];
    RecentEarlier(after.prints, end.prints[|after.prints|..], end.windows[i].close, t.length);
    PriceToBeatAgrees(t, steps, j);
  }
}
