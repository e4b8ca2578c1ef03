/** The order lifecycle of exec/order_manager.py, one order at a time, as values. */
module Orders {
  import opened Grid

  datatype Side = Buy | Sell

  datatype TimeInForce = GTC | FOK | GTD | FAK

  datatype OrderState = Draft | Signed | Sent | Acked | Partial | Filled | Canceled | Rejected | Expired

  const TERMINAL_STATES: set<OrderState> := {Filled, Canceled, Rejected, Expired}

  /** VALID_TRANSITIONS */
  function Successors(s: OrderState): set<OrderState> {
    match s
    case Draft => {Signed, Rejected}
    case Signed => {Sent, Rejected, Expired}
    case Sent => {Acked, Rejected, Expired, Partial, Filled}
    case Acked => {Partial, Filled, Canceled, Expired}
    case Partial => {Partial, Filled, Canceled, Expired}
    case Filled => {}
    case Canceled => {}
    case Rejected => {}
    case Expired => {}
  }

  /** From which states each state can be entered. */
  lemma EnteredFrom(s: OrderState)
    ensures Draft !in Successors(s)
    ensures Signed in Successors(s) <==> s == Draft
    ensures Sent in Successors(s) <==> s == Signed
    ensures Acked in Successors(s) <==> s == Sent
    ensures Partial in Successors(s) <==> s in {Sent, Acked, Partial}
    ensures Filled in Successors(s) <==> s in {Sent, Acked, Partial}
    ensures Canceled in Successors(s) <==> s in {Acked, Partial}
    ensures Rejected in Successors(s) <==> s in {Draft, Signed, Sent}
    ensures Expired in Successors(s) <==> s in {Signed, Sent, Acked, Partial}
    ensures s in TERMINAL_STATES <==> Successors(s) == {}
  {
  }

  /** An exchange id or a client id; the shadow exchange names client order n "shadow-cn". */
  datatype OrderRef = ClientRef(id: nat) | ExchangeRef(id: nat)

  /** Unidentified is the empty trade id; Shadow(n) is "sh-tn"; Venue is an id given by a venue. */
  datatype TradeId = Unidentified | Shadow(number: nat) | Venue(text: string)

  datatype Fill = Fill(order: OrderRef, token: string, side: Side, price: real, size: real,
                       feeShares: real, feeUsdc: real, tradeId: TradeId)
  {
    function SharesDelta(): real {
      if side == Buy then size - feeShares else -size
    }

    function UsdcDelta(): real {
      if side == Buy then -Product(price, size) else Product(price, size) - feeUsdc
    }
  }

  datatype Order = Order(slug: string, token: string, side: Side, price: real, size: real, tif: TimeInForce,
                         state: OrderState, filled: real, feeShares: real, feeUsdc: real,
                         cancelRequested: bool, seen: set<TradeId>)
  {
    predicate Terminal() {
      state in TERMINAL_STATES
    }

    predicate CanBecome(next: OrderState) {
      next in Successors(state)
    }
  }

  function NewOrder(slug: string, token: string, side: Side, price: real, size: real, tif: TimeInForce): Order {
    Order(slug, token, side, price, size, tif, Draft, 0.0, 0.0, 0.0, false, {})
  }

  /** What one fill event does to its order: was accounting told, did the transition raise. */
  datatype Delivery = Delivery(order: Order, applied: bool, raised: bool)

  /** OrderManager.apply_fill once the order has been found. */
  function Deliver(o: Order, f: Fill): Delivery {
    if f.tradeId != Unidentified && f.tradeId in o.seen then
      Delivery(o, false, false)
    else
      var o1 := o.(seen := if f.tradeId != Unidentified then o.seen + {f.tradeId} else o.seen,
                   filled := Min(o.filled + f.size, o.size),
                   feeShares := o.feeShares + f.feeShares,
                   feeUsdc := o.feeUsdc + f.feeUsdc);
      if o.state == Canceled then
        Delivery(o1, true, false)
      else if o1.filled >= o.size - SIZE_TOL then
        if o.CanBecome(Filled) then Delivery(o1.(state := Filled), true, false) else Delivery(o1, false, true)
      else if o.state in {Sent, Acked, Partial} then
        Delivery(o1.(state := Partial), true, false)
      else
        Delivery(o1, true, false)
  }
}
