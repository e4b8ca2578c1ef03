/** The deterministic replayer (sim/replayer.py) and its virtual clock (clock.py). */
module Replay {
  import opened Grid
  import opened Recording

  /** One decoded record; only those of kind "frame" are replayed. */
  datatype Doc = Doc(isFrame: bool, feed: string, mono: int, wall: int, payload: string)

  /** What a feed's parser is called with. */
  datatype Frame = Frame(feed: string, payload: string, mono: int, wall: int)

  /** The two clock readings, the counters, and the frames delivered so far. */
  datatype Playback = Playback(mono: int, wall: int, lastMono: int, replayed: nat, skipped: nat, regressions: nat,
                               delivered: seq<Frame>)

  const READY: Playback := Playback(0, 0, 0, 0, 0, 0, [])

  /** A replayer that may have run before, or whose clock has: run only forgets the last mono stamp. */
  function Rewound(p: Playback): Playback {
    p.(lastMono := 0)
  }

  function MaxInt(x: int, y: int): int {
    if x < y then y else x
  }

  /** Replayer._apply */
  function Applied(p: Playback, feeds: set<string>, d: Doc): Playback {
    if !d.isFrame then p
    else if d.feed !in feeds then p.(skipped := p.skipped + 1)
    else
      var late := d.mono < p.lastMono;
      var mono := if late then p.lastMono else d.mono;
      Playback(MaxInt(p.mono, mono), MaxInt(p.wall, d.wall), mono, p.replayed + 1, p.skipped,
               if late then p.regressions + 1 else p.regressions,
               p.delivered + [Frame(d.feed, d.payload, mono, d.wall)])
  }

  function PlayedFrom(p: Playback, docs: seq<Doc>, feeds: set<string>): Playback {
    if docs == [] then p else Applied(PlayedFrom(p, docs[..|docs| - 1], feeds), feeds, docs[|docs| - 1])
  }

  function Replayed(docs: seq<Doc>, feeds: set<string>): Playback {
    PlayedFrom(READY, docs, feeds)
  }

  class VirtualClock {
    var mono: int
    var wall: int

    constructor ()
      ensures mono == 0 && wall == 0
    {
      mono, wall := 0, 0;
    }

    /** Neither reading ever goes back, and each is the latest value it was ever set to. */
    method Set(newMono: int, newWall: int)
      modifies this
      ensures mono >= old(mono) && mono >= newMono && mono in {old(mono), newMono}
      ensures wall >= old(wall) && wall >= newWall && wall in {old(wall), newWall}
    {
      mono := MaxInt(mono, newMono);
      wall := MaxInt(wall, newWall);
    }
  }

  class Replayer {
    const clock: VirtualClock
    const feeds: set<string>
    var replayed: nat
    var skipped: nat
    var regressions: nat
    var lastMono: int
    ghost var delivered: seq<Frame>

    ghost function Value(): Playback
      reads this, clock
    {
      Playback(clock.mono, clock.wall, lastMono, replayed, skipped, regressions, delivered)
    }

    constructor (clock: VirtualClock, feeds: set<string>)
      ensures this.clock == clock && this.feeds == feeds
      ensures Value() == Playback(clock.mono, clock.wall, 0, 0, 0, 0, [])
    {
      this.clock, this.feeds := clock, feeds;
      replayed, skipped, regressions, lastMono, delivered := 0, 0, 0, 0, [];
    }

    method Apply(d: Doc)
      modifies this, clock
      ensures Value() == Applied(old(Value()), feeds, d)
    {
      if !d.isFrame {
        return;
      }
      if d.feed !in feeds {
        skipped := skipped + 1;
        return;
      }
      var mono := d.mono;
      if mono < lastMono {
        regressions := regressions + 1;
        mono := lastMono;
      }
      lastMono := mono;
      clock.Set(mono, d.wall);
      delivered := delivered + [Frame(d.feed, d.payload, mono, d.wall)];
      replayed := replayed + 1;
    }

    method Run(docs: seq<Doc>)
      modifies this, clock
      ensures Value() == PlayedFrom(Rewound(old(Value())), docs, feeds)
    {
      lastMono := 0;
      var k := 0;
      while k < |docs|
        invariant 0 <= k <= |docs| && Value() == PlayedFrom(Rewound(old(Value())), docs[..k], feeds)
      {
        assert docs[..k + 1][..k] == docs[..k];
        Apply(docs[k]);
        k := k + 1;
      }
      assert docs[..k] == docs;
    }
  }

  /** The frames meant for a known feed, in recorded order. */
  function Known(docs: seq<Doc>, feeds: set<string>): seq<Doc> {
    if docs == [] then []
    else
      var rest, d := Known(docs[..|docs| - 1], feeds), docs[|docs| - 1];
      if d.isFrame && d.feed in feeds then rest + [d] else rest
  }

  function Unknown(docs: seq<Doc>, feeds: set<string>): nat {
    if docs == [] then 0
    else
      var d := docs[|docs| - 1];
      Unknown(docs[..|docs| - 1], feeds) + if d.isFrame && d.feed !in feeds then 1 else 0
  }

  /** The largest of zero and the mono stamps of the frames. */
  function Peak(frames: seq<Doc>): int {
    if frames == [] then 0 else MaxInt(Peak(frames[..|frames| - 1]), frames[|frames| - 1].mono)
  }

  lemma {:induction false} PeakIsMax(frames: seq<Doc>)
    ensures Peak(frames) >= 0 && forall f <- frames :: f.mono <= Peak(frames)
    ensures Peak(frames) == 0 || exists f <- frames :: f.mono == Peak(frames)
  {
    if frames != [] {
      var init, last := frames[..|frames| - 1], frames[|frames| - 1];
      PeakIsMax(init);
      assert frames == init + [last] && last in frames && forall f <- init :: f in frames;
    }
  }

  /** The largest of a wall reading and the wall stamps of the frames. */
  function Latest(wall: int, frames: seq<Doc>): int {
    if frames == [] then wall
    else
      var before, last := Latest(wall, frames[..|frames| - 1]), frames[|frames| - 1].wall;
      if last > before then last else before
  }

  lemma {:induction false} LatestIsMax(wall: int, frames: seq<Doc>)
    ensures Latest(wall, frames) >= wall && forall f <- frames :: f.wall <= Latest(wall, frames)
    ensures Latest(wall, frames) == wall || exists f <- frames :: f.wall == Latest(wall, frames)
  {
    if frames != [] {
      var init, last := frames[..|frames| - 1], frames[|frames| - 1];
      LatestIsMax(wall, init);
      assert frames == init + [last] && last in frames && forall f <- init :: f in frames;
    }
  }

  /** How many frames are stamped below the running maximum before them. */
  function LateFrames(frames: seq<Doc>): nat {
    if frames == [] then 0
    else
      var init := frames[..|frames| - 1];
      LateFrames(init) + if frames[|frames| - 1].mono < Peak(init) then 1 else 0
  }

  /** Every known frame is delivered once, in order, with its payload and wall stamp as recorded and its mono stamp
      raised to the running maximum. */
  ghost predicate Faithful(frames: seq<Doc>, delivered: seq<Frame>) {
    && |delivered| == |frames|
    && forall k {:trigger delivered[k]} :: 0 <= k < |frames| ==>
         delivered[k] == Frame(frames[k].feed, frames[k].payload, Peak(frames[..k + 1]), frames[k].wall)
  }

  lemma FaithfulStep(frames: seq<Doc>, delivered: seq<Frame>, d: Doc)
    requires Faithful(frames, delivered)
    ensures Faithful(frames + [d], delivered + [Frame(d.feed, d.payload, Peak(frames + [d]), d.wall)])
  {
    var all, more := frames + [d], delivered + [Frame(d.feed, d.payload, Peak(frames + [d]), d.wall)];
    assert all[..|frames| + 1] == all;
    forall k | 0 <= k < |all|
      ensures more[k] == Frame(all[k].feed, all[k].payload, Peak(all[..k + 1]), all[k].wall)
    {
      if k < |frames| {
        assert all[..k + 1] == frames[..k + 1];
        assert more[k] == delivered[k];
      }
    }
  }

  /** The state of a playback that has met these frames, and this many frames of unknown feeds, since p. */
  ghost predicate Played(p: Playback, frames: seq<Doc>, unknown: nat, q: Playback) {
    && p.delivered <= q.delivered && Faithful(frames, q.delivered[|p.delivered|..])
    && q.mono == (if frames == [] then p.mono else MaxInt(p.mono, Peak(frames))) && q.lastMono == Peak(frames)
    && q.wall == Latest(p.wall, frames)
    && q.replayed == p.replayed + |frames| && q.skipped == p.skipped + unknown
    && q.regressions == p.regressions + LateFrames(frames)
  }

  lemma PlayedStep(p: Playback, frames: seq<Doc>, unknown: nat, q: Playback, feeds: set<string>, d: Doc)
    requires Played(p, frames, unknown, q) && d.isFrame && d.feed in feeds
    ensures Played(p, frames + [d], unknown, Applied(q, feeds, d))
  {
    assert (frames + [d])[..|frames|] == frames;
    var n, frame := |p.delivered|, Frame(d.feed, d.payload, Peak(frames + [d]), d.wall);
    FaithfulStep(frames, q.delivered[n..], d);
    assert (q.delivered + [frame])[n..] == q.delivered[n..] + [frame];
  }

  /** The replayed stamps are the running maximum of the recorded ones, and order_regressions counts exactly the
      frames below it; the clock shows the last stamp delivered, unless it was ahead to begin with. */
  lemma {:induction false} ReplayIsFaithful(p: Playback, docs: seq<Doc>, feeds: set<string>)
    ensures Played(p, Known(docs, feeds), Unknown(docs, feeds), PlayedFrom(Rewound(p), docs, feeds))
  {
    if docs != [] {
      var init, d := docs[..|docs| - 1], docs[|docs| - 1];
      ReplayIsFaithful(p, init, feeds);
      if d.isFrame && d.feed in feeds {
        PlayedStep(p, Known(init, feeds), Unknown(init, feeds), PlayedFrom(Rewound(p), init, feeds), feeds, d);
      }
    }
  }

  lemma DeliveredFaithfully(docs: seq<Doc>, feeds: set<string>)
    ensures Faithful(Known(docs, feeds), Replayed(docs, feeds).delivered)
  {
    ReplayIsFaithful(READY, docs, feeds);
    assert Rewound(READY) == READY;
    var delivered := Replayed(docs, feeds).delivered;
    assert delivered[0..] == delivered;
  }

  // ---- from the recorder to the replayer

  /** The frames of the recording that decode. */
  function Decoded(lines: seq<string>, decode: string -> Option<Doc>): seq<Doc> {
    if lines == [] then []
    else
      var d := decode(lines[0]);
      (if d.Some? then [d.value] else []) + Decoded(lines[1..], decode)
  }

  function Encoded(docs: seq<Doc>, encode: Doc -> string): seq<string> {
    if docs == [] then [] else [encode(docs[0])] + Encoded(docs[1..], encode)
  }

  /** A codec that writes one JSON object a line and loses nothing. */
  ghost predicate Codec(encode: Doc -> string, decode: string -> Option<Doc>) {
    forall d :: ObjectLine(encode(d)) && decode(encode(d)) == Some(d)
  }

  lemma {:induction false} DecodeEncoded(docs: seq<Doc>, encode: Doc -> string, decode: string -> Option<Doc>)
    requires Codec(encode, decode)
    ensures Decoded(Encoded(docs, encode), decode) == docs
  {
    if docs != [] { DecodeEncoded(docs[1..], encode, decode); }
  }

  /** Whatever the batching and the rotation, replaying what the writer wrote, in the order of the file names, is
      replaying what was recorded. */
  lemma RecordReplay(es: seq<Event>, docs: seq<Doc>, hours: seq<nat>, feeds: set<string>,
                     encode: Doc -> string, decode: string -> Option<Doc>)
    requires Codec(encode, decode) && Orderly(es) && Settled(OnEvents(es)) && Accepted(es) == Encoded(docs, encode)
    requires SortedListing(OnEvents(es).files, hours) && EqualWidth(OnEvents(es).files)
    ensures Replayed(Decoded(ReadListed(OnEvents(es).files, hours), decode), feeds) == Replayed(docs, feeds)
    ensures Faithful(Known(docs, feeds), Replayed(docs, feeds).delivered)
  {
    ReadsBack(es);
    NameOrderReads(OnEvents(es).files, hours);
    DecodeEncoded(docs, encode, decode);
    DeliveredFaithfully(docs, feeds);
  }
}
