/** The mirrored order books of feeds/polymarket_clob_ws.py under every sequence of feed events. */
module Mirror {
  import opened Grid
  import opened Orders
  import opened Books

  /** One entry of a price_change; Bad lacks a price or has no numeric size. */
  datatype Change = Good(side: Side, level: Level) | Bad

  /** BadBids fails on its first list and BadAsks on its second; no changes at all stands for a list of changes
      that is missing or not a list. */
  datatype Event =
    | Connected
    | Track(tokens: seq<string>)
    | Untrack(tokens: seq<string>)
    | FullBook(token: string, bids: Levels, asks: Levels)
    | BadBids(token: string)
    | BadAsks(token: string, bids: Levels)
    | PriceChange(token: string, changes: Option<seq<Change>>)

  /** A book event, each of whose lists may be malformed. */
  function BookEvent(token: string, bids: Option<Levels>, asks: Option<Levels>): Event {
    if bids.None? then BadBids(token) else if asks.None? then BadAsks(token, bids.value) else FullBook(token, bids.value, asks.value)
  }

  type Mirrored = map<string, Book>

  function TrackAll(m: Mirrored, tokens: seq<string>): Mirrored
    decreases tokens
  {
    if tokens == [] then m
    else TrackAll(if tokens[0] in m then m else m[tokens[0] := UNTOUCHED], tokens[1..])
  }

  function UntrackAll(m: Mirrored, tokens: seq<string>): Mirrored
    decreases tokens
  {
    if tokens == [] then m else UntrackAll(m - {tokens[0]}, tokens[1..])
  }

  /** The changes before the first bad one are applied; a bad one leaves the book dirty. */
  function Changed(b: Book, changes: seq<Change>): Book
    decreases changes
  {
    if changes == [] then b
    else if changes[0].Bad? then b.(dirty := true)
    else Changed(Delta(b, changes[0].side, changes[0].level), changes[1..])
  }

  /** What an event about one token does to its book. */
  function Updated(b: Book, e: Event): Book {
    match e
    case Connected => b.(dirty := true)
    case FullBook(_, bids, asks) => Snapshot(bids, asks)
    case BadBids(_) => b.(dirty := true)
    case BadAsks(_, bids) => b.(bids := Collect(bids), dirty := true)
    case PriceChange(_, changes) => if changes.None? then b.(dirty := true) else Changed(b, changes.value)
    case _ => b
  }

  function OnEvent(m: Mirrored, e: Event): Mirrored {
    match e
    case Connected => map token | token in m :: Updated(m[token], e)
    case Track(tokens) => TrackAll(m, tokens)
    case Untrack(tokens) => UntrackAll(m, tokens)
    case _ => if e.token in m then m[e.token := Updated(m[e.token], e)] else m
  }

  function OnEvents(events: seq<Event>): Mirrored {
    if events == [] then map[] else OnEvent(OnEvents(events[..|events| - 1]), events[|events| - 1])
  }

  /** A book that is not dirty is not crossed, and no price is listed twice on a side. */
  ghost predicate Sound(b: Book) {
    && (b.dirty || !b.Crossed())
    && DistinctKeys(b.bids) && DistinctKeys(b.asks)
  }

  ghost predicate AllSound(m: Mirrored) {
    forall token <- m :: Sound(m[token])
  }

  lemma DeltaSound(b: Book, side: Side, lv: Level)
    requires Sound(b)
    ensures Sound(Delta(b, side, lv))
    ensures b.dirty ==> Delta(b, side, lv).dirty
  {
    PutKeys(b.Of(side), lv);
    PopKeys(b.Of(side), lv.key);
  }

  lemma {:induction false} ChangedSound(b: Book, changes: seq<Change>)
    requires Sound(b)
    ensures Sound(Changed(b, changes))
    ensures b.dirty ==> Changed(b, changes).dirty
    decreases changes
  {
    if changes != [] && changes[0].Good? {
      DeltaSound(b, changes[0].side, changes[0].level);
      ChangedSound(Delta(b, changes[0].side, changes[0].level), changes[1..]);
    }
  }

  lemma UpdatedSound(b: Book, e: Event)
    requires Sound(b)
    ensures Sound(Updated(b, e))
    ensures b.dirty && !Updated(b, e).dirty ==> e.FullBook? && !Snapshot(e.bids, e.asks).Crossed()
  {
    match e
    case FullBook(_, bids, asks) =>
      CollectKeys(bids);
      CollectKeys(asks);
    case BadAsks(_, bids) => CollectKeys(bids);
    case PriceChange(_, changes) => if changes.Some? { ChangedSound(b, changes.value); }
    case _ =>
  }

  lemma {:induction false} TrackAllKeeps(m: Mirrored, tokens: seq<string>)
    ensures forall t :: t in TrackAll(m, tokens) <==> t in m || t in tokens
    ensures forall t <- TrackAll(m, tokens) :: TrackAll(m, tokens)[t] == if t in m then m[t] else UNTOUCHED
    decreases tokens
  {
    if tokens != [] {
      TrackAllKeeps(if tokens[0] in m then m else m[tokens[0] := UNTOUCHED], tokens[1..]);
      assert tokens == [tokens[0]] + tokens[1..];
    }
  }

  lemma {:induction false} UntrackAllKeeps(m: Mirrored, tokens: seq<string>)
    ensures forall t :: t in UntrackAll(m, tokens) <==> t in m && t !in tokens
    ensures forall t <- UntrackAll(m, tokens) :: UntrackAll(m, tokens)[t] == m[t]
    decreases tokens
  {
    if tokens != [] {
      UntrackAllKeeps(m - {tokens[0]}, tokens[1..]);
      assert tokens == [tokens[0]] + tokens[1..];
    }
  }

  lemma EventSound(m: Mirrored, e: Event)
    requires AllSound(m)
    ensures AllSound(OnEvent(m, e))
  {
    match e
    case Track(tokens) => TrackAllKeeps(m, tokens);
    case Untrack(tokens) => UntrackAllKeeps(m, tokens);
    case Connected => forall t | t in m ensures Sound(Updated(m[t], e)) { UpdatedSound(m[t], e); }
    case _ => if e.token in m { UpdatedSound(m[e.token], e); }
  }

  /** Over every sequence of snapshots, deltas, malformed events and reconnects, a book that is not dirty is not
      crossed. */
  lemma {:induction false} CleanNeverCrossed(events: seq<Event>)
    ensures AllSound(OnEvents(events))
  {
    if events != [] {
      CleanNeverCrossed(events[..|events| - 1]);
      EventSound(OnEvents(events[..|events| - 1]), events[|events| - 1]);
    }
  }

  /** A dirty book becomes clean only through a complete, uncrossed snapshot of its own token, and is then exactly
      that snapshot. */
  lemma OnlySnapshotsClean(events: seq<Event>, e: Event, token: string)
    requires var m := OnEvents(events); token in m && m[token].dirty
    requires token in OnEvent(OnEvents(events), e) && !OnEvent(OnEvents(events), e)[token].dirty
    ensures e.FullBook? && e.token == token
    ensures OnEvent(OnEvents(events), e)[token] == Book(Collect(e.bids), Collect(e.asks), false)
    ensures !OnEvent(OnEvents(events), e)[token].Crossed()
  {
    var m := OnEvents(events);
    CleanNeverCrossed(events);
    UpdatedSound(m[token], e);
    match e
    case Track(tokens) => TrackAllKeeps(m, tokens);
    case Untrack(tokens) => UntrackAllKeeps(m, tokens);
    case _ =>
  }

  // ---- a side of the book as the dictionary it mirrors

  /** The size listed under a key. */
  function SizeOf(ls: Levels, key: string): Option<real> {
    if ls == [] then None else if ls[0].key == key then Some(ls[0].size) else SizeOf(ls[1..], key)
  }

  lemma {:induction false} PutSizes(ls: Levels, lv: Level, key: string)
    ensures SizeOf(Put(ls, lv), key) == if key == lv.key then Some(lv.size) else SizeOf(ls, key)
  {
    if ls != [] && ls[0].key != lv.key { PutSizes(ls[1..], lv, key); }
  }

  lemma {:induction false} PopSizes(ls: Levels, gone: string, key: string)
    ensures SizeOf(Pop(ls, gone), key) == if key == gone then None else SizeOf(ls, key)
  {
    if ls != [] { PopSizes(ls[1..], gone, key); }
  }

  /** The size that a run of changes leaves under a key of one side: that of the last change to it, if positive. */
  function FinalSize(before: Option<real>, changes: seq<Change>, side: Side, key: string): Option<real>
    decreases changes
  {
    if changes == [] || changes[0].Bad? then before
    else
      var c := changes[0];
      FinalSize(if c.side == side && c.level.key == key then (if c.level.size <= 0.0 then None else Some(c.level.size)) else before,
                changes[1..], side, key)
  }

  /** A price change leaves under each key of each side what its last word on that key says. */
  lemma {:induction false} ChangesTakeEffect(b: Book, changes: seq<Change>, side: Side, key: string)
    ensures SizeOf(Changed(b, changes).Of(side), key) == FinalSize(SizeOf(b.Of(side), key), changes, side, key)
    decreases changes
  {
    if changes != [] && changes[0].Good? {
      var c := changes[0];
      PutSizes(b.Of(c.side), c.level, key);
      PopSizes(b.Of(c.side), c.level.key, key);
      ChangesTakeEffect(Delta(b, c.side, c.level), changes[1..], side, key);
    }
  }

  /** In a snapshot the last entry of a key counts. */
  lemma {:induction false} CollectTakesLast(ls: Levels, i: nat)
    requires i < |ls| && forall j :: i < j < |ls| ==> ls[j].key != ls[i].key
    ensures SizeOf(Collect(ls), ls[i].key) == Some(ls[i].size)
  {
    var n := |ls| - 1;
    PutSizes(Collect(ls[..n]), ls[n], ls[i].key);
    if i < n { CollectTakesLast(ls[..n], i); }
  }

  // ---- clean and dirty

  /** Some bid is at or above some ask. */
  ghost predicate Overlaps(b: Book) {
    exists x <- b.bids, y <- b.asks :: x.price >= y.price
  }

  lemma OverlapsIs(b: Book)
    ensures Overlaps(b) <==> b.Crossed()
  {
    CrossedMeans(b);
    if Overlaps(b) {
      var x, y :| x in b.bids && y in b.asks && x.price >= y.price;
      var i :| 0 <= i < |b.bids| && b.bids[i] == x;
      var j :| 0 <= j < |b.asks| && b.asks[j] == y;
    }
    if b.Crossed() {
      var i, j :| 0 <= i < |b.bids| && 0 <= j < |b.asks| && b.bids[i].price >= b.asks[j].price;
      assert b.bids[i] in b.bids && b.asks[j] in b.asks;
    }
  }

  /** The run of changes meets a bad one, or overlaps on the way. */
  ghost predicate GoesWrong(b: Book, changes: seq<Change>)
    decreases changes
  {
    changes != [] &&
    (changes[0].Bad?
     || Overlaps(Delta(b, changes[0].side, changes[0].level))
     || GoesWrong(Delta(b, changes[0].side, changes[0].level), changes[1..]))
  }

  lemma {:induction false} ChangedDirty(b: Book, changes: seq<Change>)
    ensures Changed(b, changes).dirty <==> b.dirty || GoesWrong(b, changes)
    decreases changes
  {
    if changes != [] && changes[0].Good? {
      var c := Delta(b, changes[0].side, changes[0].level);
      OverlapsIs(c);
      DeltaDirty(b, changes[0].side, changes[0].level);
      ChangedDirty(c, changes[1..]);
    }
  }

  lemma DeltaDirty(b: Book, side: Side, lv: Level)
    ensures Delta(b, side, lv).dirty <==> b.dirty || Delta(b, side, lv).Crossed()
  {
  }

  /** When a tracked book is dirty after an event: always after a reconnect or a malformed event, after a full book exactly
      if it overlaps, after a price change if it was, or if a change was bad or made it overlap. */
  lemma DirtyAfter(b: Book, e: Event)
    ensures e.Connected? || e.BadBids? || e.BadAsks? || (e.PriceChange? && e.changes.None?) ==> Updated(b, e).dirty
    ensures e.FullBook? ==> (Updated(b, e).dirty <==> Overlaps(Updated(b, e)))
    ensures e.PriceChange? && e.changes.Some? ==> (Updated(b, e).dirty <==> b.dirty || GoesWrong(b, e.changes.value))
  {
    OverlapsIs(Updated(b, e));
    if e.PriceChange? && e.changes.Some? { ChangedDirty(b, e.changes.value); }
  }

  /** What an event says of a token that is tracked before and after it: a reconnect reaches every book, a book or price
      event only its own token's, and tracking and untracking none. */
  lemma EventReaches(m: Mirrored, e: Event, token: string)
    requires token in m && token in OnEvent(m, e)
    ensures OnEvent(m, e)[token]
            == if e.Connected? || (!e.Track? && !e.Untrack? && e.token == token) then Updated(m[token], e) else m[token]
  {
    match e
    case Track(tokens) => TrackAllKeeps(m, tokens);
    case Untrack(tokens) => UntrackAllKeeps(m, tokens);
    case _ =>
  }

  /** A reconnect changes nothing but that; a bad list of bids nothing but that; a bad list of asks comes after the bids
      were replaced. */
  lemma ContentAfter(b: Book, e: Event)
    ensures e.Connected? || e.BadBids? || (e.PriceChange? && e.changes.None?) ==>
              Updated(b, e).bids == b.bids && Updated(b, e).asks == b.asks
    ensures e.BadAsks? ==> Updated(b, e).bids == Collect(e.bids) && Updated(b, e).asks == b.asks
    ensures e.FullBook? ==> Updated(b, e).bids == Collect(e.bids) && Updated(b, e).asks == Collect(e.asks)
  {
  }

  // ---- the objects

  class OrderBook {
    const token: string
    var bids: Levels
    var asks: Levels
    var dirty: bool
    var lastHash: string
    var updated: int

    function Value(): Book
      reads this
    {
      Book(bids, asks, dirty)
    }

    constructor (token: string)
      ensures this.token == token && Value() == UNTOUCHED
    {
      this.token, bids, asks, dirty, lastHash, updated := token, [], [], true, "", 0;
    }

    /** A list that cannot be read raises where it is met: with it, everything after it is left undone. */
    method ApplySnapshot(newBids: Option<Levels>, newAsks: Option<Levels>, hash: string, recv: int) returns (raised: bool)
      modifies this
      ensures raised == (newBids.None? || newAsks.None?)
      ensures !raised ==> Value() == Snapshot(newBids.value, newAsks.value) && lastHash == hash && updated == recv
      ensures raised ==> lastHash == old(lastHash) && updated == old(updated)
      ensures raised ==> Value() == old(Value()).(bids := if newBids.Some? then Collect(newBids.value) else old(bids))
    {
      if newBids.None? {
        return true;
      }
      bids := CollectLevels(newBids.value);
      if newAsks.None? {
        return true;
      }
      asks := CollectLevels(newAsks.value);
      lastHash, updated := hash, recv;
      dirty := Value().Crossed();
      raised := false;
    }

    method ApplyDelta(side: Side, lv: Level, recv: int)
      modifies this`bids, this`asks, this`dirty, this`updated
      ensures Value() == Delta(old(Value()), side, lv) && updated == recv
    {
      if side == Buy {
        bids := if lv.size <= 0.0 then Pop(bids, lv.key) else Put(bids, lv);
      } else {
        asks := if lv.size <= 0.0 then Pop(asks, lv.key) else Put(asks, lv);
      }
      updated := recv;
      if Value().Crossed() {
        dirty := true;
      }
    }

    /** The body of _on_price_change for a tracked token; ok says that no entry was bad. */
    method ApplyChanges(changes: Option<seq<Change>>, recv: int) returns (ok: bool)
      modifies this`bids, this`asks, this`dirty, this`updated
      ensures Value() == if changes.None? then old(Value()).(dirty := true) else Changed(old(Value()), changes.value)
      ensures ok ==> changes.Some?
    {
      if changes.None? {
        dirty := true;
        return false;
      }
      var k := 0;
      while k < |changes.value|
        invariant 0 <= k <= |changes.value|
        invariant Changed(Value(), changes.value[k..]) == Changed(old(Value()), changes.value)
      {
        var c := changes.value[k];
        assert changes.value[k..][0] == c && changes.value[k..][1..] == changes.value[k + 1..];
        if c.Bad? {
          dirty := true;
          return false;
        }
        ApplyDelta(c.side, c.level, recv);
        k := k + 1;
      }
      ok := true;
    }
  }

  /** The dictionary comprehension of apply_snapshot. */
  method CollectLevels(ls: Levels) returns (r: Levels)
    ensures r == Collect(ls)
  {
    r := [];
    var k := 0;
    while k < |ls|
      invariant 0 <= k <= |ls| && r == Collect(ls[..k])
    {
      assert ls[..k + 1][..k] == ls[..k];
      r := Put(r, ls[k]);
      k := k + 1;
    }
    assert ls[..k] == ls;
  }

  class ClobMarketFeed {
    var books: map<string, OrderBook>

    /** Each token has a book of its own. */
    ghost predicate Valid()
      reads this
    {
      forall s <- books, t <- books :: s != t ==> books[s] != books[t]
    }

    ghost function Value(): Mirrored
      reads this, books.Values
    {
      map token | token in books :: books[token].Value()
    }

    constructor ()
      ensures Valid() && Value() == map[]
    {
      books := map[];
    }

    method AddBook(token: string)
      requires Valid() && token !in books
      modifies this
      ensures Valid() && books.Keys == old(books.Keys) + {token} && Value() == old(Value())[token := UNTOUCHED]
      ensures forall t <- old(books) :: books[t] == old(books)[t]
    {
      var book := new OrderBook(token);
      books := books[token := book];
    }

    method TrackTokens(tokens: seq<string>) returns (added: seq<string>)
      requires Valid()
      modifies this
      ensures Valid() && Value() == TrackAll(old(Value()), tokens)
      ensures forall t :: t in added <==> t in tokens && t !in old(books)
    {
      added := [];
      var k := 0;
      while k < |tokens|
        invariant 0 <= k <= |tokens| && Valid()
        invariant TrackAll(Value(), tokens[k..]) == TrackAll(old(Value()), tokens)
        invariant forall t :: t in books <==> t in old(books) || t in tokens[..k]
        invariant forall t :: t in added <==> t in tokens[..k] && t !in old(books)
        invariant forall t <- old(books) :: t in books && books[t] == old(books)[t]
      {
        assert tokens[k..][0] == tokens[k] && tokens[k..][1..] == tokens[k + 1..];
        assert tokens[..k + 1] == tokens[..k] + [tokens[k]];
        if tokens[k] !in books {
          AddBook(tokens[k]);
          added := added + [tokens[k]];
        }
        k := k + 1;
      }
      assert tokens[..k] == tokens;
    }

    method UntrackTokens(tokens: seq<string>)
      requires Valid()
      modifies this
      ensures Valid() && Value() == UntrackAll(old(Value()), tokens)
    {
      var k := 0;
      while k < |tokens|
        invariant 0 <= k <= |tokens| && Valid()
        invariant UntrackAll(Value(), tokens[k..]) == UntrackAll(old(Value()), tokens)
      {
        assert tokens[k..][0] == tokens[k] && tokens[k..][1..] == tokens[k + 1..];
        ghost var before := Value();
        books := books - {tokens[k]};
        assert Value() == before - {tokens[k]};
        k := k + 1;
      }
    }

    method OnBook(token: string, bids: Option<Levels>, asks: Option<Levels>, hash: string, recv: int)
      requires Valid()
      modifies books.Values
      ensures Valid() && Value() == OnEvent(old(Value()), BookEvent(token, bids, asks))
    {
      if token in books {
        var raised := books[token].ApplySnapshot(bids, asks, hash, recv);
        if raised {
          books[token].dirty := true;
        }
      }
    }

    method OnPriceChange(token: string, changes: Option<seq<Change>>, recv: int)
      requires Valid()
      modifies books.Values
      ensures Valid() && Value() == OnEvent(old(Value()), PriceChange(token, changes))
    {
      if token in books {
        var ok := books[token].ApplyChanges(changes, recv);
      }
    }

    /** Every (re)connection makes every book dirty. */
    method OnConnected()
      requires Valid()
      modifies books.Values
      ensures Valid() && Value() == OnEvent(old(Value()), Connected)
    {
      forall b | b in books.Values {
        b.dirty := true;
      }
    }
  }
}
