/** When manage_sessions closes, promotes, creates and prefetches sessions, told by the clock. */
module RolloverTimes {
  import opened Grid
  import opened KCapture
  import opened Sessions
  import opened Rollover

  /** The aligned window of this length that the time is in. */
  predicate Covers(start: int, now: real, length: int)
    requires length > 0
  {
    start % length == 0 && start as real <= now < (start + length) as real
  }

  lemma NowCovered(now: real, length: int)
    requires length > 0
    ensures Covers(WindowStart(now.Floor, length), now, length)
  {
    WindowContains(now.Floor, length, 0);
  }

  lemma CoversOne(a: int, b: int, now: real, length: int)
    requires length > 0 && Covers(a, now, length) && Covers(b, now, length)
    ensures a == b
  {
    WindowContains(now.Floor, length, a);
    WindowContains(now.Floor, length, b);
  }

  /** The session of the next window: there is none yet, or not for the window after start, and that one opens soon. */
  predicate Prefetches(t: Timing, r: Roll, start: int)
    requires t.length > 0 && IdsOk(r)
  {
    && (r.next.None? || r.windows[r.next.value].start != start + t.length)
    && (start + t.length) as real - r.now <= t.prefetch
  }

  lemma PrefetchIs(t: Timing, r: Roll, start: int)
    requires t.length > 0 && IdsOk(r) && Covers(start, r.now, t.length)
    ensures Prefetch(t, r) == r.(at := if Prefetches(t, r, start) then InPrefetch else Idle)
  {
    NowCovered(r.now, t.length);
    CoversOne(start, WindowStart(r.now.Floor, t.length), r.now, t.length);
  }

  /** What a call of manage_sessions does, start being the window the time is in: it begins to close the current session
      from its close on; otherwise it keeps a current one; promotes the next one, if it is of this window, over none; or
      goes on to create this window's session. With a current session in place it prefetches. */
  lemma ManageMeans(t: Timing, r: Roll, now: real, start: int)
    requires t.length > 0 && Inv(t, r) && r.at == Idle && now >= r.now && Covers(start, now, t.length)
    ensures var q := Next(t, r, Manage(now));
            && q.now == now
            && (r.current.Some? && now >= r.windows[r.current.value].close as real ==>
                  q.at == InTeardown && q.current == r.current && q.windows[r.current.value].state == Closing)
            && (r.current.Some? && now < r.windows[r.current.value].close as real ==>
                  && r.windows[r.current.value].start == start && q.current == r.current && q.windows == r.windows
                  && q.at == (if Prefetches(t, r.(now := now), start) then InPrefetch else Idle))
            && (r.current.None? && r.next.Some? && r.windows[r.next.value].start == start ==>
                  && q.current == r.next && q.next.None? && q.windows[r.next.value].state == Active
                  && (q.at == InPrefetch <==> (start + t.length) as real - now <= t.prefetch) && q.at in {Idle, InPrefetch})
            && (r.current.None? && (r.next.None? || r.windows[r.next.value].start != start) ==> q == r.(now := now, at := InCreation))
  {
    NowCovered(now, t.length);
    CoversOne(start, WindowStart(now.Floor, t.length), now, t.length);
    if r.current.Some? {
      CurrentCovers(t, r, now, start);
      if now < r.windows[r.current.value].close as real { PrefetchIs(t, r.(now := now, at := Idle), start); }
    } else if r.next.Some? && r.windows[r.next.value].start == start {
      PromotedIs(t, r.(now := now), start);
    }
  }

  lemma CurrentCovers(t: Timing, r: Roll, now: real, start: int)
    requires t.length > 0 && Inv(t, r) && r.current.Some? && now >= r.now && Covers(start, now, t.length)
    ensures now < r.windows[r.current.value].close as real ==> r.windows[r.current.value].start == start
  {
    var w := r.windows[r.current.value];
    assert w in r.windows;
    if now < w.close as real { CoversOne(start, w.start, now, t.length); }
  }

  lemma PromotedIs(t: Timing, r: Roll, start: int)
    requires t.length > 0 && IdsOk(r) && NextOk(r) && r.current.None? && r.next.Some? && r.windows[r.next.value].start == start
    requires Covers(start, r.now, t.length)
    ensures var q := Promote(t, r);
            && q.current == r.next && q.next.None? && q.windows[r.next.value].state == Active && q.now == r.now
            && (q.at == InPrefetch <==> (start + t.length) as real - r.now <= t.prefetch) && q.at in {Idle, InPrefetch}
  {
    NowCovered(r.now, t.length);
    CoversOne(start, WindowStart(r.now.Floor, t.length), r.now, t.length);
    PrefetchIs(t, Install(t, r, r.next.value, start).(at := Idle), start);
  }

  /** What discovery's answer leads to: a session of the window the time is in becomes current, active, with the Price to
      Beat stored for its window; or, when prefetching, a session of the window after it becomes the next one. */
  lemma CreatedMeans(t: Timing, r: Roll, start: int)
    requires t.length > 0 && Inv(t, r) && Covers(start, r.now, t.length)
    ensures r.at == InCreation ==>
              var q, n := Next(t, r, Resume(true)), |r.windows|;
              && q.current == Some(n) && q.next.None? && |q.windows| == n + 1 && q.windows[..n] == r.windows
              && q.windows[n] == Window(start, start + t.length, Active, GetK(t, r, start), None, None)
    ensures r.at == InPrefetch ==>
              var q, n := Next(t, r, Resume(true)), |r.windows|;
              && q.next == Some(n) && q.current == r.current && |q.windows| == n + 1 && q.windows[..n] == r.windows && q.at == Idle
              && q.windows[n] == Window(start + t.length, start + 2 * t.length, Pending, GetK(t, r, start + t.length), None, None)
    ensures r.at in {InCreation, InPrefetch} ==>
              var q := Next(t, r, Resume(false)); q.windows == r.windows && q.current == r.current
  {
    NowCovered(r.now, t.length);
    CoversOne(start, WindowStart(r.now.Floor, t.length), r.now, t.length);
    if r.at == InCreation { InstalledIs(t, r, start); }
  }

  lemma InstalledIs(t: Timing, r: Roll, start: int)
    requires t.length > 0
    ensures var q, n := Install(t, Created(t, r, start), |r.windows|, start), |r.windows|;
            && q.current == Some(n) && q.next.None? && |q.windows| == n + 1 && q.windows[..n] == r.windows
            && q.windows[n] == Window(start, start + t.length, Active, GetK(t, r, start), None, None)
  {
    var k, n := GetK(t, r, start), |r.windows|;
    var w := NewWindow(start, start + t.length).(k := k);
    assert (r.windows + [w])[n := w.(state := Active)] == r.windows + [w.(state := Active)];
  }
}
