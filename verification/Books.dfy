/** One token's price levels (feeds/polymarket_clob_ws.py, OrderBook) as values. */
module Books {
  import opened Grid
  import opened Orders

  /** One entry of a price-keyed dictionary: the key's text, the float it parses to, the size. */
  datatype Level = Level(key: string, price: real, size: real)

  /** A dictionary in insertion order. */
  type Levels = seq<Level>

  datatype Book = Book(bids: Levels, asks: Levels, dirty: bool)
  {
    function Of(side: Side): Levels {
      if side == Buy then bids else asks
    }

    /** OrderBook._crossed */
    predicate Crossed() {
      var bb, ba := Best(Buy, bids), Best(Sell, asks);
      bb.Some? && ba.Some? && bb.value.price >= ba.value.price
    }
  }

  /** A book is dirty until its first full snapshot. */
  const UNTOUCHED: Book := Book([], [], true)

  ghost predicate DistinctKeys(ls: Levels) {
    forall i, j :: 0 <= i < j < |ls| ==> ls[i].key != ls[j].key
  }

  /** Dictionary assignment: an existing key keeps its place. */
  function Put(ls: Levels, lv: Level): Levels {
    if ls == [] then [lv]
    else if ls[0].key == lv.key then [lv] + ls[1..]
    else [ls[0]] + Put(ls[1..], lv)
  }

  function Pop(ls: Levels, key: string): Levels {
    if ls == [] then []
    else if ls[0].key == key then Pop(ls[1..], key)
    else [ls[0]] + Pop(ls[1..], key)
  }

  /** A dictionary comprehension over a list of levels: a repeated key takes its last size. */
  function Collect(ls: Levels): Levels {
    if ls == [] then [] else Put(Collect(ls[..|ls| - 1]), ls[|ls| - 1])
  }

  /** p is strictly better than q for somebody trading against this side of the book. */
  predicate Better(side: Side, p: real, q: real) {
    if side == Buy then p > q else p < q
  }

  /** The first best level in insertion order, as max and min with key=float give it. */
  function Best(side: Side, ls: Levels): Option<Level> {
    if ls == [] then None
    else
      var rest := Best(side, ls[1..]);
      if rest.Some? && Better(side, rest.value.price, ls[0].price) then rest else Some(ls[0])
  }

  function Insert(side: Side, lv: Level, ls: Levels): Levels {
    if ls == [] || !Better(side, ls[0].price, lv.price) then [lv] + ls
    else [ls[0]] + Insert(side, lv, ls[1..])
  }

  /** Python's stable sort of the levels, best first. */
  function Ranked(side: Side, ls: Levels): Levels {
    if ls == [] then [] else Insert(side, ls[0], Ranked(side, ls[1..]))
  }

  /** OrderBook.top_levels */
  function TopLevels(side: Side, ls: Levels, n: nat): Levels {
    var r := Ranked(side, ls);
    if n < |r| then r[..n] else r
  }

  ghost predicate BestFirst(side: Side, ls: Levels) {
    forall i, j :: 0 <= i < j < |ls| ==> !Better(side, ls[j].price, ls[i].price)
  }

  lemma {:induction false} InsertRanked(side: Side, lv: Level, ls: Levels)
    requires BestFirst(side, ls)
    ensures BestFirst(side, Insert(side, lv, ls))
    ensures multiset(Insert(side, lv, ls)) == multiset(ls) + multiset{lv}
  {
    if ls == [] || !Better(side, ls[0].price, lv.price) {
    } else {
      InsertRanked(side, lv, ls[1..]);
      var t := Insert(side, lv, ls[1..]);
      assert ls == [ls[0]] + ls[1..];
      forall j | 0 <= j < |t| ensures !Better(side, t[j].price, ls[0].price) {
        assert t[j] in multiset(t);
        assert t[j] == lv || t[j] in ls[1..];
      }
    }
  }

  lemma {:induction false} RankedSorts(side: Side, ls: Levels)
    ensures BestFirst(side, Ranked(side, ls))
    ensures multiset(Ranked(side, ls)) == multiset(ls)
    ensures |Ranked(side, ls)| == |ls|
  {
    if ls != [] {
      RankedSorts(side, ls[1..]);
      InsertRanked(side, ls[0], Ranked(side, ls[1..]));
      assert ls == [ls[0]] + ls[1..];
      assert |multiset(Ranked(side, ls))| == |multiset(ls)|;
    }
  }

  /** The head of the ranking is best_bid or best_ask, ties going to the oldest key in both. */
  lemma {:induction false} RankedHead(side: Side, ls: Levels)
    requires ls != []
    ensures Ranked(side, ls) != [] && Best(side, ls) == Some(Ranked(side, ls)[0])
  {
    if |ls| > 1 {
      RankedHead(side, ls[1..]);
    }
  }

  /** The levels of a side at one price, in insertion order. */
  function AtPrice(ls: Levels, price: real): Levels {
    if ls == [] then [] else if ls[0].price == price then [ls[0]] + AtPrice(ls[1..], price) else AtPrice(ls[1..], price)
  }

  lemma {:induction false} InsertStable(side: Side, lv: Level, ls: Levels, price: real)
    ensures AtPrice(Insert(side, lv, ls), price) == if lv.price == price then [lv] + AtPrice(ls, price) else AtPrice(ls, price)
  {
    if ls == [] || !Better(side, ls[0].price, lv.price) {
      assert ([lv] + ls)[1..] == ls;
    } else {
      InsertStable(side, lv, ls[1..], price);
      var t := Insert(side, lv, ls[1..]);
      assert ([ls[0]] + t)[1..] == t;
    }
  }

  /** Ranking keeps levels of one price in insertion order, best bids first as well as best asks. */
  lemma {:induction false} RankedStable(side: Side, ls: Levels, price: real)
    ensures AtPrice(Ranked(side, ls), price) == AtPrice(ls, price)
  {
    if ls != [] {
      RankedStable(side, ls[1..], price);
      InsertStable(side, ls[0], Ranked(side, ls[1..]), price);
    }
  }

  /** The best n levels: sorted, taken from the side, headed by its best, none left out being better. */
  lemma TopLevelsRank(side: Side, ls: Levels, n: nat)
    ensures var t := TopLevels(side, ls, n);
            && |t| == (if n < |ls| then n else |ls|)
            && BestFirst(side, t)
            && (forall lv <- t :: lv in ls)
            && (t != [] ==> Best(side, ls) == Some(t[0]))
            && (forall i, lv :: 0 <= i < |t| && lv in ls && lv !in t ==> !Better(side, lv.price, t[i].price))
  {
    RankedSorts(side, ls);
    RankedMembers(side, ls);
    if ls != [] { RankedHead(side, ls); }
    CutRank(side, Ranked(side, ls), |TopLevels(side, ls, n)|);
  }

  lemma RankedMembers(side: Side, ls: Levels)
    ensures forall lv :: lv in Ranked(side, ls) <==> lv in ls
  {
    RankedSorts(side, ls);
    assert forall lv :: lv in Ranked(side, ls) <==> lv in multiset(Ranked(side, ls));
    assert forall lv :: lv in ls <==> lv in multiset(ls);
  }

  lemma CutRank(side: Side, r: Levels, k: nat)
    requires BestFirst(side, r) && k <= |r|
    ensures BestFirst(side, r[..k])
    ensures forall i, lv :: 0 <= i < k && lv in r && lv !in r[..k] ==> !Better(side, lv.price, r[i].price)
  {
    assert r == r[..k] + r[k..];
  }

  /** A book is crossed exactly when some bid is at or above some ask. */
  lemma CrossedMeans(b: Book)
    ensures b.Crossed() <==> exists i, j :: 0 <= i < |b.bids| && 0 <= j < |b.asks| && b.bids[i].price >= b.asks[j].price
  {
    BestIsExtreme(Buy, b.bids);
    BestIsExtreme(Sell, b.asks);
    if b.Crossed() {
      var i :| 0 <= i < |b.bids| && b.bids[i] == Best(Buy, b.bids).value;
      var j :| 0 <= j < |b.asks| && b.asks[j] == Best(Sell, b.asks).value;
      assert b.bids[i].price >= b.asks[j].price;
    }
  }

  lemma {:induction false} BestIsExtreme(side: Side, ls: Levels)
    ensures Best(side, ls).None? <==> ls == []
    ensures ls != [] ==> Best(side, ls).value in ls
    ensures forall lv <- ls :: !Better(side, lv.price, Best(side, ls).value.price)
  {
    if ls != [] {
      BestIsExtreme(side, ls[1..]);
      assert ls == [ls[0]] + ls[1..];
    }
  }

  /** OrderBook.apply_snapshot */
  function Snapshot(bids: Levels, asks: Levels): Book {
    var b := Book(Collect(bids), Collect(asks), false);
    b.(dirty := b.Crossed())
  }

  /** OrderBook.apply_delta */
  function Delta(b: Book, side: Side, lv: Level): Book {
    var changed := if lv.size <= 0.0 then Pop(b.Of(side), lv.key) else Put(b.Of(side), lv);
    var b1 := if side == Buy then b.(bids := changed) else b.(asks := changed);
    if b1.Crossed() then b1.(dirty := true) else b1
  }

  function Keys(ls: Levels): seq<string> {
    if ls == [] then [] else [ls[0].key] + Keys(ls[1..])
  }

  /** Assignment keeps the order of the keys, a new one coming last. */
  lemma {:induction false} PutOrder(ls: Levels, lv: Level)
    ensures Keys(Put(ls, lv)) == if lv.key in Keys(ls) then Keys(ls) else Keys(ls) + [lv.key]
  {
    if ls != [] && ls[0].key != lv.key {
      PutOrder(ls[1..], lv);
      assert ([ls[0]] + Put(ls[1..], lv))[1..] == Put(ls[1..], lv);
    }
  }

  function LeftKeys(keys: seq<string>, key: string): seq<string> {
    if keys == [] then [] else if keys[0] == key then LeftKeys(keys[1..], key) else [keys[0]] + LeftKeys(keys[1..], key)
  }

  lemma {:induction false} PopOrder(ls: Levels, key: string)
    ensures Keys(Pop(ls, key)) == LeftKeys(Keys(ls), key)
  {
    if ls != [] {
      PopOrder(ls[1..], key);
      assert Keys(ls)[1..] == Keys(ls[1..]);
      if ls[0].key != key { assert ([ls[0]] + Pop(ls[1..], key))[1..] == Pop(ls[1..], key); }
    }
  }

  lemma {:induction false} PutKeys(ls: Levels, lv: Level)
    requires DistinctKeys(ls)
    ensures DistinctKeys(Put(ls, lv))
    ensures lv in Put(ls, lv)
    ensures forall x :: x in Put(ls, lv) ==> x == lv || (x in ls && x.key != lv.key)
  {
    if ls != [] {
      assert ls == [ls[0]] + ls[1..];
      assert DistinctKeys(ls[1..]);
      if ls[0].key != lv.key {
        PutKeys(ls[1..], lv);
      } else {
        assert forall x <- ls[1..] :: x.key != lv.key;
      }
    }
  }

  lemma {:induction false} PopKeys(ls: Levels, key: string)
    requires DistinctKeys(ls)
    ensures DistinctKeys(Pop(ls, key))
    ensures forall x :: x in Pop(ls, key) <==> x in ls && x.key != key
  {
    if ls != [] {
      assert ls == [ls[0]] + ls[1..];
      assert DistinctKeys(ls[1..]);
      PopKeys(ls[1..], key);
    }
  }

  lemma {:induction false} CollectKeys(ls: Levels)
    ensures DistinctKeys(Collect(ls))
    ensures forall x :: x in Collect(ls) ==> x in ls
  {
    if ls != [] {
      CollectKeys(ls[..|ls| - 1]);
      PutKeys(Collect(ls[..|ls| - 1]), ls[|ls| - 1]);
    }
  }

  /** The levels a fill can use are on the lot and tick grids, at non-negative prices. */
  ghost predicate LevelsOnGrid(ls: Levels) {
    forall lv <- ls :: OnLot(lv.size) && OnTick(lv.price) && lv.price >= 0.0
  }

  ghost predicate BookOnGrid(b: Book) {
    LevelsOnGrid(b.bids) && LevelsOnGrid(b.asks)
  }

  /** Prices on the tick grid, whatever the sizes. */
  ghost predicate LevelsOnTicks(ls: Levels) {
    forall lv <- ls :: OnTick(lv.price) && lv.price >= 0.0
  }

  ghost predicate BookOnTicks(b: Book) {
    LevelsOnTicks(b.bids) && LevelsOnTicks(b.asks)
  }
}
