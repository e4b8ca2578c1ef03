/** When an arriving order rests, and behind what. */
module Joining {
  import opened Grid
  import opened Orders
  import opened Books
  import opened Matching
  import opened Exchange
  import opened OneOrder

  /** A maker order crosses exactly when some opposite level is at or through its price. */
  lemma CrossesMeans(o: Order, b: Book)
    ensures Crosses(o, b) <==>
              exists lv <- b.Of(Opposite(o.side)) ::
                if o.side == Buy then lv.price <= o.price else lv.price >= o.price
  {
    var others := b.Of(Opposite(o.side));
    BestIsExtreme(Opposite(o.side), others);
    if Crosses(o, b) { assert Best(Opposite(o.side), others).value in others; }
  }

  /** On the tick grid the queue ahead is the size of the oldest level listed at exactly the order's price. */
  lemma {:induction false} QueueAheadMeans(ls: Levels, price: real) returns (k: nat)
    requires OnTick(price) && forall lv <- ls :: OnTick(lv.price)
    ensures k <= |ls| && forall j :: 0 <= j < k ==> ls[j].price != price
    ensures k < |ls| ==> ls[k].price == price && SizeAt(ls, price) == ls[k].size
    ensures k == |ls| ==> SizeAt(ls, price) == 0.0
  {
    if ls == [] {
      k := 0;
    } else {
      assert ls[0] in ls && forall lv <- ls[1..] :: lv in ls;
      if -PRICE_TOL < ls[0].price - price < PRICE_TOL {
        TickGap(ls[0].price, price);
        TickGap(price, ls[0].price);
        k := 0;
      } else {
        var rest := QueueAheadMeans(ls[1..], price);
        k := rest + 1;
      }
    }
  }

  /** A maker order that would rest: its book is usable and nothing opposite is at or through its price. */
  predicate Joins(o: Order, book: Option<Book>) {
    book.Some? && !book.value.dirty && o.tif in {GTC, GTD} && !Crosses(o, book.value)
  }

  /** An arriving order rests exactly when it joins; it then stands behind what is visible at its price, from its
      arrival on, with its whole size, and otherwise leaves the exchange at once. */
  lemma RestsWhen(l: Life, book: Option<Book>, fee: Option<real>, due: int)
    requires Sound(l) && l.order.state == Acked && l.rest.None? && Usable(book, fee)
    ensures Land(l, book, fee, due).rest.Some? <==> Joins(l.order, book)
    ensures Joins(l.order, book) ==>
              Land(l, book, fee, due)
              == l.(rest := Some(Rest(l.id, SizeAt(book.value.Of(l.order.side), l.order.price), due, l.order.size)))
    ensures !Joins(l.order, book) ==>
              Land(l, book, fee, due).order.state in {Filled, Expired} && !Land(l, book, fee, due).raised
              && Land(l, book, fee, due).places == l.places && Land(l, book, fee, due).cancels == l.cancels
  {
    if book.Some? && !book.value.dirty { TakeSound(l, fee, book.value); }
  }
}
