/** One trading window's session object (markets/session.py). */
module Sessions {
  import opened Grid
  import opened Ledger
  import opened KCapture

  datatype SessionState = Pending | Active | Closing | Settling | Done

  /** _TRANSITIONS */
  function Successors(s: SessionState): set<SessionState> {
    match s
    case Pending => {Active, Done}
    case Active => {Closing}
    case Closing => {Settling}
    case Settling => {Done}
    case Done => {}
  }

  /** From which states each state can be entered: there is one way through, and a session that never started can be
      done at once. */
  lemma EnteredFrom(s: SessionState)
    ensures Pending !in Successors(s)
    ensures Active in Successors(s) <==> s == Pending
    ensures Closing in Successors(s) <==> s == Active
    ensures Settling in Successors(s) <==> s == Closing
    ensures Done in Successors(s) <==> s == Settling || s == Pending
  {
  }

  /** The session's identity and what happens to it. */
  datatype Window = Window(start: int, close: int, state: SessionState, k: Option<Capture>,
                           outcome: Option<Outcome>, closePrice: Option<real>)
  {
    /** set_k: the first capture wins, unless an older print turns up. */
    function SetK(cap: Capture): Window {
      if k.None? || cap.ts < k.value.ts then this.(k := Some(cap)) else this
    }

    /** settle: a tie resolves up. */
    function Resolve(price: real): Window
      requires k.Some?
    {
      this.(closePrice := Some(price), outcome := Some(if price >= k.value.k then Up else Down))
    }
  }

  function NewWindow(start: int, close: int): Window {
    Window(start, close, Pending, None, None, None)
  }

  class MarketSession {
    const start: int
    const close: int
    var state: SessionState
    var k: Option<Capture>
    var outcome: Option<Outcome>
    var closePrice: Option<real>

    function Value(): Window
      reads this
    {
      Window(start, close, state, k, outcome, closePrice)
    }

    constructor (start: int, close: int)
      ensures Value() == NewWindow(start, close)
    {
      this.start, this.close, state, k, outcome, closePrice := start, close, Pending, None, None, None;
    }

    method Transition(next: SessionState) returns (raised: bool)
      modifies this`state
      ensures raised == (next !in Successors(old(state)))
      ensures Value() == if raised then old(Value()) else old(Value()).(state := next)
    {
      raised := next !in Successors(state);
      if !raised {
        state := next;
      }
    }

    method SetK(cap: Capture)
      modifies this`k
      ensures Value() == old(Value()).SetK(cap)
    {
      if k.None? || cap.ts < k.value.ts {
        k := Some(cap);
      }
    }

    /** Without a Price to Beat there is nothing to settle against. */
    method Settle(price: real) returns (result: Option<Outcome>)
      modifies this`closePrice, this`outcome
      ensures old(k).None? ==> result == None && Value() == old(Value())
      ensures old(k).Some? ==> Value() == old(Value()).Resolve(price) && result == outcome && closePrice == Some(price)
      ensures old(k).Some? ==> result.Some? && (result == Some(Up) <==> price >= old(k).value.k)
    {
      if k.None? {
        return None;
      }
      closePrice := Some(price);
      outcome := Some(if price >= k.value.k then Up else Down);
      result := outcome;
    }
  }

  /** After set_k has seen captures in any order, the session holds the oldest of them, the first among equals. */
  function SetAll(w: Window, caps: seq<Capture>): Window {
    if caps == [] then w else SetAll(w, caps[..|caps| - 1]).SetK(caps[|caps| - 1])
  }

  lemma {:induction false} OldestWins(w: Window, caps: seq<Capture>) returns (i: nat)
    requires w.k.None?
    ensures caps == [] ==> SetAll(w, caps) == w
    ensures caps != [] ==>
              && i < |caps| && SetAll(w, caps) == w.(k := Some(caps[i]))
              && (forall c <- caps :: caps[i].ts <= c.ts) && forall c <- caps[..i] :: caps[i].ts < c.ts
  {
    i := 0;
    if caps != [] {
      var n := |caps| - 1;
      i := OldestWins(w, caps[..n]);
      assert caps == caps[..n] + [caps[n]];
      if n == 0 || caps[n].ts < caps[i].ts { i := n; }
      assert n > 0 && i < n ==> caps[..n][..i] == caps[..i];
    }
  }
}
