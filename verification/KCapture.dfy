/** Capturing the Price to Beat of each window from oracle prints (feeds/rtds_chainlink_ws.py). */
module KCapture {
  import opened Grid
  import opened Newest

  /** An oracle print: its value and the oracle's own timestamp in milliseconds. */
  datatype OraclePrint = OraclePrint(value: real, ts: int)

  /** KCapture, filed under its window. */
  datatype Capture = Capture(k: real, ts: int)

  type Captures = map<int, Capture>

  /** int(ts / 1000.0), which truncates toward zero. */
  function Seconds(ts: int): int {
    if ts >= 0 then ts / 1000 else -(-ts / 1000)
  }

  /** window_start; Python's % agrees with Dafny's for a positive length. */
  function WindowStart(t: int, length: int): int
    requires length > 0
  {
    t - t % length
  }

  lemma StartIs(now: int, length: int)
    requires length > 0
    ensures WindowStart(now, length) == length * (now / length)
  {
    assert now == length * (now / length) + now % length;
  }

  lemma MultiplesAlign(q: int, length: int)
    requires length > 0
    ensures (length * q) % length == 0
  {
    var x := length * q;
    var d := x / length - q;
    assert x == length * (x / length) + x % length;
    assert length * d + x % length == 0;
    assert d > 0 ==> length * d >= length;
    assert d < 0 ==> length * d <= -length;
  }

  /** Every second lies in exactly one aligned window. */
  lemma WindowContains(t: int, length: int, ws: int)
    requires length > 0
    ensures WindowStart(t, length) % length == 0 && WindowStart(t, length) <= t < WindowStart(t, length) + length
    ensures ws % length == 0 && ws <= t < ws + length ==> ws == WindowStart(t, length)
  {
    StartIs(t, length);
    MultiplesAlign(t / length, length);
    if ws % length == 0 && ws <= t < ws + length {
      assert ws == length * (ws / length) && t == length * (t / length) + t % length;
      SameMultiple(length, ws / length, t / length, t - ws, t % length);
    }
  }

  lemma SameMultiple(length: int, q: int, r: int, a: int, b: int)
    requires length > 0 && 0 <= a < length && 0 <= b < length && length * q + a == length * r + b
    ensures q == r
  {
    assert q < r ==> length * (q + 1) <= length * r;
    assert r < q ==> length * (r + 1) <= length * q;
  }

  function WindowOf(p: OraclePrint, length: int): int
    requires length > 0
  {
    WindowStart(Seconds(p.ts), length)
  }

  /** The print was made in the window that starts at second ws, in milliseconds: from the start on and before the end;
      before the epoch, where seconds truncate upwards, from just after the second before to the last second. */
  predicate PrintedIn(p: OraclePrint, ws: int, length: int)
    requires length > 0
  {
    && ws % length == 0
    && (if p.ts >= 0 then 1000 * ws <= p.ts < 1000 * (ws + length) else 1000 * (ws - 1) < p.ts <= 1000 * (ws + length - 1))
  }

  lemma SecondsMeans(ts: int, s: int)
    ensures s <= Seconds(ts) <==> if ts >= 0 then 1000 * s <= ts else 1000 * (s - 1) < ts
  {
  }

  /** A print is filed under the window it was made in. */
  lemma WindowOfMeans(p: OraclePrint, ws: int, length: int)
    requires length > 0
    ensures WindowOf(p, length) == ws <==> PrintedIn(p, ws, length)
  {
    WindowContains(Seconds(p.ts), length, ws);
    SecondsMeans(p.ts, ws);
    SecondsMeans(p.ts, ws + length);
  }

  /** More than 32 windows are cut back to the 16 newest. */
  function Evict(m: Captures): Captures {
    if |m| > 32 then map ws | ws in m && ws in Largest(m.Keys, 16) :: m[ws] else m
  }

  /** Up to 32 windows are stored; one more, and the 16 newest are left, with what they had. */
  lemma EvictMeans(m: Captures)
    ensures |m| <= 32 ==> Evict(m) == m
    ensures |m| > 32 ==>
              && |Evict(m).Keys| == 16 && Evict(m).Keys <= m.Keys
              && (forall ws <- Evict(m) :: Evict(m)[ws] == m[ws])
              && forall w <- m, v <- Evict(m) :: w !in Evict(m) ==> w < v
  {
    if |m| > 32 { assert Evict(m).Keys == Largest(m.Keys, 16); }
  }

  /** A print is captured when it is the window's first or older than the one stored. */
  predicate Captures?(m: Captures, p: OraclePrint, length: int)
    requires length > 0
  {
    var ws := WindowOf(p, length);
    ws !in m || p.ts < m[ws].ts
  }

  /** RtdsChainlinkFeed._maybe_capture_k */
  function AfterPrint(m: Captures, p: OraclePrint, length: int): Captures
    requires length > 0
  {
    if Captures?(m, p, length) then Evict(m[WindowOf(p, length) := Capture(p.value, p.ts)]) else m
  }

  function AfterPrints(prints: seq<OraclePrint>, length: int): Captures
    requires length > 0
  {
    if prints == [] then map[] else AfterPrint(AfterPrints(prints[..|prints| - 1], length), prints[|prints| - 1], length)
  }

  class RtdsChainlinkFeed {
    const length: int
    var latest: Option<OraclePrint>
    var k: Captures

    constructor (length: int)
      ensures this.length == length && latest == None && k == map[]
    {
      this.length, latest, k := length, None, map[];
    }

    /** captured is what on_k_capture is called with. */
    method HandlePrint(p: OraclePrint) returns (captured: Option<Capture>)
      requires length > 0
      modifies this
      ensures k == AfterPrint(old(k), p, length)
      ensures captured == if Captures?(old(k), p, length) then Some(Capture(p.value, p.ts)) else None
      ensures forall ws :: PrintedIn(p, ws, length) ==>
                && captured == (if ws !in old(k) || p.ts < old(k)[ws].ts then Some(Capture(p.value, p.ts)) else None)
                && k == (if captured.Some? then Evict(old(k)[ws := captured.value]) else old(k))
      ensures latest == Some(if old(latest).Some? && p.ts < old(latest).value.ts then old(latest).value else p)
    {
      if latest.None? || p.ts >= latest.value.ts {
        latest := Some(p);
      }
      captured := MaybeCaptureK(p);
    }

    /** The print is the Price to Beat of the window it was made in, if that has none or a later one. */
    method MaybeCaptureK(p: OraclePrint) returns (captured: Option<Capture>)
      requires length > 0
      modifies this`k
      ensures k == AfterPrint(old(k), p, length)
      ensures captured == if Captures?(old(k), p, length) then Some(Capture(p.value, p.ts)) else None
      ensures forall ws :: PrintedIn(p, ws, length) ==>
                && captured == (if ws !in old(k) || p.ts < old(k)[ws].ts then Some(Capture(p.value, p.ts)) else None)
                && k == (if captured.Some? then Evict(old(k)[ws := captured.value]) else old(k))
    {
      var ws := WindowStart(Seconds(p.ts), length);
      forall v { WindowOfMeans(p, v, length); }
      if ws in k && p.ts >= k[ws].ts {
        return None;
      }
      var cap := Capture(p.value, p.ts);
      k := k[ws := cap];
      if |k| > 32 {
        EvictOld();
      }
      captured := Some(cap);
    }

    /** Deletes the oldest windows until 16 are left. */
    method EvictOld()
      requires |k| > 32
      modifies this`k
      ensures k == Evict(old(k))
    {
      ghost var all := k;
      while |k| > 16
        invariant CutBack(all, k)
      {
        CutStep(all, k);
        k := k - {MinOf(k.Keys)};
      }
      CutDone(all, k);
    }

    method GetK(ws: int) returns (cap: Option<Capture>)
      ensures cap == Stored(k, ws)
    {
      cap := if ws in k then Some(k[ws]) else None;
    }
  }

  /** m is all without some of its oldest windows, of which at least 16 are left. */
  ghost predicate CutBack(all: Captures, m: Captures) {
    && |m| >= 16
    && m.Keys <= all.Keys
    && (forall ws <- m :: m[ws] == all[ws])
    && Largest(m.Keys, 16) == Largest(all.Keys, 16)
  }

  lemma OneDeleted(m: Captures, ws: int)
    requires ws in m
    ensures (m - {ws}).Keys == m.Keys - {ws} && |m - {ws}| == |m| - 1
  {
    assert (m - {ws}).Keys == m.Keys - {ws};
    assert |(m - {ws}).Keys| == |m.Keys| - 1;
  }

  lemma CutStep(all: Captures, m: Captures)
    requires CutBack(all, m) && |m| > 16
    ensures CutBack(all, m - {MinOf(m.Keys)}) && |m - {MinOf(m.Keys)}| < |m|
  {
    DropSmallest(m.Keys, 16);
    OneDeleted(m, MinOf(m.Keys));
  }

  lemma CutDone(all: Captures, m: Captures)
    requires CutBack(all, m) && |m| == 16 && |all| > 32
    ensures m == Evict(all)
  {
    SameSize(Largest(m.Keys, 16), m.Keys);
    assert forall ws :: ws in m <==> ws in Evict(all);
  }

  function Stored(m: Captures, ws: int): Option<Capture> {
    if ws in m then Some(m[ws]) else None
  }

  /** The earliest print of a window by oracle time, the first received among equals. */
  function Earliest(prints: seq<OraclePrint>, ws: int, length: int): Option<Capture>
    requires length > 0
  {
    if prints == [] then None
    else
      var e, p := Earliest(prints[..|prints| - 1], ws, length), prints[|prints| - 1];
      if WindowOf(p, length) == ws && (e.None? || p.ts < e.value.ts) then Some(Capture(p.value, p.ts)) else e
  }

  ghost predicate FirstOf(prints: seq<OraclePrint>, i: nat, ws: int, length: int)
    requires length > 0
  {
    && i < |prints| && PrintedIn(prints[i], ws, length)
    && forall j | 0 <= j < |prints| && PrintedIn(prints[j], ws, length) ::
         prints[i].ts <= prints[j].ts && (j < i ==> prints[i].ts < prints[j].ts)
  }

  lemma {:induction false} EarliestMeans(prints: seq<OraclePrint>, ws: int, length: int) returns (i: nat)
    requires length > 0
    ensures Earliest(prints, ws, length).None? ==> forall p <- prints :: !PrintedIn(p, ws, length)
    ensures Earliest(prints, ws, length).Some? ==>
              FirstOf(prints, i, ws, length) && Earliest(prints, ws, length) == Some(Capture(prints[i].value, prints[i].ts))
  {
    i := 0;
    if prints != [] {
      var n := |prints| - 1;
      i := EarliestMeans(prints[..n], ws, length);
      var e, p := Earliest(prints[..n], ws, length), prints[n];
      assert prints == prints[..n] + [p];
      WindowOfMeans(p, ws, length);
      if PrintedIn(p, ws, length) && (e.None? || p.ts < e.value.ts) {
        FirstReplaced(prints, i, ws, length);
        i := n;
      } else if e.Some? {
        FirstStays(prints, i, ws, length);
      }
    }
  }

  lemma FirstReplaced(prints: seq<OraclePrint>, i: nat, ws: int, length: int)
    requires length > 0 && prints != []
    requires var n := |prints| - 1;
             && PrintedIn(prints[n], ws, length)
             && ((forall p <- prints[..n] :: !PrintedIn(p, ws, length))
                 || (FirstOf(prints[..n], i, ws, length) && prints[n].ts < prints[i].ts))
    ensures FirstOf(prints, |prints| - 1, ws, length)
  {
    var n := |prints| - 1;
    forall j | 0 <= j < n && PrintedIn(prints[j], ws, length) ensures prints[n].ts < prints[j].ts {
      assert prints[..n][j] == prints[j] && prints[j] in prints[..n];
    }
  }

  lemma FirstStays(prints: seq<OraclePrint>, i: nat, ws: int, length: int)
    requires length > 0 && prints != []
    requires var n := |prints| - 1;
             FirstOf(prints[..n], i, ws, length) && (PrintedIn(prints[n], ws, length) ==> prints[i].ts <= prints[n].ts)
    ensures FirstOf(prints, i, ws, length)
  {
    var n := |prints| - 1;
    forall j | 0 <= j < n && PrintedIn(prints[j], ws, length)
      ensures prints[i].ts <= prints[j].ts && (j < i ==> prints[i].ts < prints[j].ts)
    {
      assert prints[..n][j] == prints[j] && prints[..n][i] == prints[i];
    }
  }

  /** The windows seen in a sequence of prints. */
  function Seen(prints: seq<OraclePrint>, length: int): set<int>
    requires length > 0
  {
    if prints == [] then {} else Seen(prints[..|prints| - 1], length) + {WindowOf(prints[|prints| - 1], length)}
  }

  /** Fewer than 16 windows newer than this one have been seen. */
  predicate Recent(prints: seq<OraclePrint>, ws: int, length: int)
    requires length > 0
  {
    |Above(Seen(prints, length), ws)| < 16
  }

  lemma {:induction false} StoredIsSeen(prints: seq<OraclePrint>, length: int)
    requires length > 0
    ensures AfterPrints(prints, length).Keys <= Seen(prints, length)
  {
    if prints != [] { StoredIsSeen(prints[..|prints| - 1], length); }
  }

  lemma {:induction false} EarliestIsSeen(prints: seq<OraclePrint>, ws: int, length: int)
    requires length > 0
    ensures Earliest(prints, ws, length).Some? <==> ws in Seen(prints, length)
  {
    if prints != [] { EarliestIsSeen(prints[..|prints| - 1], ws, length); }
  }

  /** Eviction keeps every key with fewer than 16 keys above it. */
  lemma EvictKeepsRecent(m: Captures, seen: set<int>, w: int)
    requires w in m && m.Keys <= seen && |Above(seen, w)| < 16
    ensures w in Evict(m) && Evict(m)[w] == m[w]
  {
    if |m| > 32 && w !in Largest(m.Keys, 16) {
      DroppedHaveLarger(m.Keys, 16, w);
      assert Above(Largest(m.Keys, 16), w) <= Above(seen, w);
      SubsetSize(Above(Largest(m.Keys, 16), w), Above(seen, w));
    }
  }

  lemma RecentBefore(prints: seq<OraclePrint>, ws: int, length: int)
    requires length > 0 && prints != [] && Recent(prints, ws, length)
    ensures Recent(prints[..|prints| - 1], ws, length)
  {
    var before, after := Above(Seen(prints[..|prints| - 1], length), ws), Above(Seen(prints, length), ws);
    assert before <= after;
    SubsetSize(before, after);
  }

  lemma {:induction false} StoresEarliest(prints: seq<OraclePrint>, ws: int, length: int)
    requires length > 0 && Recent(prints, ws, length)
    ensures Stored(AfterPrints(prints, length), ws) == Earliest(prints, ws, length)
  {
    if prints != [] {
      var init, p := prints[..|prints| - 1], prints[|prints| - 1];
      var m, v := AfterPrints(init, length), WindowOf(p, length);
      RecentBefore(prints, ws, length);
      StoresEarliest(init, ws, length);
      StoredIsSeen(init, length);
      EarliestIsSeen(init, ws, length);
      if Captures?(m, p, length) {
        var stored := m[v := Capture(p.value, p.ts)];
        if ws in stored { EvictKeepsRecent(stored, Seen(prints, length), ws); }
      }
    }
  }

  lemma {:induction false} SeenMeans(prints: seq<OraclePrint>, ws: int, length: int)
    requires length > 0
    ensures ws in Seen(prints, length) <==> exists p <- prints :: PrintedIn(p, ws, length)
  {
    if prints != [] {
      var init, p := prints[..|prints| - 1], prints[|prints| - 1];
      assert prints == init + [p];
      SeenMeans(init, ws, length);
      WindowOfMeans(p, ws, length);
    }
  }

  /** cap is the window's earliest print by oracle time, the first received among equals; there is none exactly if no
      print was made in the window. */
  ghost predicate EarliestOf(prints: seq<OraclePrint>, ws: int, length: int, cap: Option<Capture>)
    requires length > 0
  {
    && (cap.None? <==> forall p <- prints :: !PrintedIn(p, ws, length))
    && (cap.Some? ==> exists i: nat ::
          i < |prints| && FirstOf(prints, i, ws, length) && cap == Some(Capture(prints[i].value, prints[i].ts)))
  }

  lemma EarliestIs(prints: seq<OraclePrint>, ws: int, length: int)
    requires length > 0
    ensures EarliestOf(prints, ws, length, Earliest(prints, ws, length))
  {
    var i := EarliestMeans(prints, ws, length);
    if Earliest(prints, ws, length).Some? { assert prints[i] in prints && PrintedIn(prints[i], ws, length); }
  }

  /** Earliest wins despite eviction: for prints in any order, each of the 16 newest windows seen has its earliest
      print stored. */
  lemma EarliestWins(prints: seq<OraclePrint>, ws: int, length: int)
    requires length > 0 && Recent(prints, ws, length)
    ensures EarliestOf(prints, ws, length, Stored(AfterPrints(prints, length), ws))
  {
    StoresEarliest(prints, ws, length);
    EarliestIs(prints, ws, length);
  }
}
