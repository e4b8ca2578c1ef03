/** Position and PnL accounting (accounting/pnl.py) as values. */
module Ledger {
  import opened Grid
  import opened Orders
  import opened Exchange

  datatype Outcome = Up | Down

  /** MarketMeta, as far as trading and accounting read it. */
  datatype Meta = Meta(windowStart: int, windowClose: int, slug: string, upToken: string, downToken: string,
                       minOrderSize: real, feeRateBps: int, feesKnown: bool)
  {
    function TokenFor(outcome: Outcome): string {
      if outcome == Up then upToken else downToken
    }
  }

  datatype Position = Position(token: string, shares: real, cash: real, feesUsdc: real, feesShares: real)
  {
    function Apply(f: Fill): Position {
      Position(token, shares + f.SharesDelta(), cash + f.UsdcDelta(), feesUsdc + f.feeUsdc, feesShares + f.feeShares)
    }
  }

  /** SessionBook; positions is a dictionary in insertion order. */
  datatype SessionBook = SessionBook(positions: seq<Position>, realized: Option<real>, nFills: nat)

  const NEW_BOOK: SessionBook := SessionBook([], None, 0)

  function Post(ps: seq<Position>, f: Fill): seq<Position> {
    if ps == [] then [Position(f.token, 0.0, 0.0, 0.0, 0.0).Apply(f)]
    else if ps[0].token == f.token then [ps[0].Apply(f)] + ps[1..]
    else [ps[0]] + Post(ps[1..], f)
  }

  /** SessionBook.apply */
  function ApplyToBook(b: SessionBook, f: Fill): SessionBook {
    b.(positions := Post(b.positions, f), nFills := b.nFills + 1)
  }

  function Redeem(p: Position, winner: string): real {
    p.cash + Max(if p.token == winner then p.shares else 0.0, 0.0)
  }

  /** SessionBook.settle: cash flows plus redemption of winning shares, never of a negative balance. */
  function SettleTotal(ps: seq<Position>, winner: string): real {
    if ps == [] then 0.0 else Redeem(ps[0], winner) + SettleTotal(ps[1..], winner)
  }

  function CashOf(ps: seq<Position>): real {
    if ps == [] then 0.0 else ps[0].cash + CashOf(ps[1..])
  }

  datatype Accounts = Accounts(books: map<string, SessionBook>, daily: map<int, real>)
  {
    function BookFor(slug: string): SessionBook {
      if slug in books then books[slug] else NEW_BOOK
    }

    function Daily(day: int): real {
      if day in daily then daily[day] else 0.0
    }

    /** Ledger.apply_fill */
    function ApplyFill(slug: string, f: Fill): Accounts {
      this.(books := books[slug := ApplyToBook(BookFor(slug), f)])
    }

    /** Ledger.settle_session */
    function Settle(meta: Meta, outcome: Outcome): Accounts {
      var b := BookFor(meta.slug);
      var pnl := SettleTotal(b.positions, meta.TokenFor(outcome));
      var day := DayOf(meta.windowStart);
      Accounts(books[meta.slug := b.(realized := Some(pnl))], daily[day := Daily(day) + pnl])
    }
  }

  /** Python's floor division; Dafny's agrees with it for a positive divisor. */
  function DayOf(t: int): int {
    t / 86400
  }

  function PostAll(a: Accounts, journal: seq<Posting>): Accounts
    decreases journal
  {
    if journal == [] then a else PostAll(a.ApplyFill(journal[0].slug, journal[0].fill), journal[1..])
  }

  /** The book that the postings of one slug, and no others, add up to. */
  function BookOfPostings(journal: seq<Posting>, slug: string): SessionBook {
    if journal == [] then NEW_BOOK
    else
      var last := journal[|journal| - 1];
      var b := BookOfPostings(journal[..|journal| - 1], slug);
      if last.slug == slug then ApplyToBook(b, last.fill) else b
  }

  /** The books of an accounting that has seen the whole journal, settlements apart. */
  ghost predicate Balanced(a: Accounts, journal: seq<Posting>) {
    forall slug :: a.BookFor(slug).positions == BookOfPostings(journal, slug).positions
                   && a.BookFor(slug).nFills == BookOfPostings(journal, slug).nFills
  }

  lemma {:induction false} PostAllBalanced(a: Accounts, journal: seq<Posting>, more: seq<Posting>)
    requires Balanced(a, journal)
    ensures Balanced(PostAll(a, more), journal + more)
    ensures PostAll(a, more).daily == a.daily
    ensures forall slug :: PostAll(a, more).BookFor(slug).realized == a.BookFor(slug).realized
    decreases more
  {
    if more == [] {
      assert journal + more == journal;
    } else {
      var p, j1 := more[0], journal + [more[0]];
      assert j1[..|j1| - 1] == journal;
      assert journal + more == j1 + more[1..];
      PostAllBalanced(a.ApplyFill(p.slug, p.fill), j1, more[1..]);
    }
  }

  /** Settlement never loses more than the net cash paid: redemption is never negative. */
  lemma {:induction false} SettleAtLeastCash(ps: seq<Position>, winner: string)
    ensures SettleTotal(ps, winner) >= CashOf(ps)
  {
    if ps != [] { SettleAtLeastCash(ps[1..], winner); }
  }

  lemma {:induction false} PostCash(ps: seq<Position>, f: Fill)
    ensures CashOf(Post(ps, f)) == CashOf(ps) + f.UsdcDelta()
  {
    if ps != [] && ps[0].token != f.token { PostCash(ps[1..], f); }
  }

  /** What a trade pays its trader: minus its value for a buy, its value less the fee for a sale. */
  function Payment(f: Fill): real {
    if f.side == Buy then -Product(f.price, f.size) else Product(f.price, f.size) - f.feeUsdc
  }

  /** What a trade adds to its trader's shares: its size less the fee for a buy, minus its size for a sale. */
  function Shares(f: Fill): real {
    if f.side == Buy then f.size - f.feeShares else -f.size
  }

  /** Net cash of all postings of a slug. */
  function NetCash(journal: seq<Posting>, slug: string): real {
    if journal == [] then 0.0
    else
      var last := journal[|journal| - 1];
      NetCash(journal[..|journal| - 1], slug) + if last.slug == slug then Payment(last.fill) else 0.0
  }

  lemma {:induction false} CashIsNetCash(journal: seq<Posting>, slug: string)
    ensures CashOf(BookOfPostings(journal, slug).positions) == NetCash(journal, slug)
  {
    if journal != [] {
      var init, last := journal[..|journal| - 1], journal[|journal| - 1];
      CashIsNetCash(init, slug);
      PostCash(BookOfPostings(init, slug).positions, last.fill);
    }
  }

  /** The shares a settlement redeems, per token, are those bought less those sold and withheld as fees. */
  function SharesOf(ps: seq<Position>, token: string): real {
    if ps == [] then 0.0 else if ps[0].token == token then ps[0].shares else SharesOf(ps[1..], token)
  }

  function NetShares(journal: seq<Posting>, slug: string, token: string): real {
    if journal == [] then 0.0
    else
      var last := journal[|journal| - 1];
      NetShares(journal[..|journal| - 1], slug, token)
      + if last.slug == slug && last.fill.token == token then Shares(last.fill) else 0.0
  }

  lemma {:induction false} PostShares(ps: seq<Position>, f: Fill, token: string)
    ensures SharesOf(Post(ps, f), token) == SharesOf(ps, token) + if f.token == token then f.SharesDelta() else 0.0
  {
    if ps != [] && ps[0].token != f.token { PostShares(ps[1..], f, token); }
  }

  lemma {:induction false} SharesAreNetShares(journal: seq<Posting>, slug: string, token: string)
    ensures SharesOf(BookOfPostings(journal, slug).positions, token) == NetShares(journal, slug, token)
  {
    if journal != [] {
      var init, last := journal[..|journal| - 1], journal[|journal| - 1];
      SharesAreNetShares(init, slug, token);
      PostShares(BookOfPostings(init, slug).positions, last.fill, token);
    }
  }

  /** Redemption in closed form: a book has one position per token, so settlement pays the winner's balance once. */
  ghost predicate OnePerToken(ps: seq<Position>) {
    forall i, j :: 0 <= i < j < |ps| ==> ps[i].token != ps[j].token
  }

  lemma {:induction false} PostOnePerToken(ps: seq<Position>, f: Fill)
    requires OnePerToken(ps)
    ensures OnePerToken(Post(ps, f))
    ensures forall p <- Post(ps, f) :: p.token == f.token || exists q <- ps :: q.token == p.token
  {
    if ps != [] {
      assert OnePerToken(ps[1..]);
      assert ps == [ps[0]] + ps[1..];
      if ps[0].token != f.token {
        PostOnePerToken(ps[1..], f);
        forall p | p in Post(ps[1..], f) ensures p.token != ps[0].token {
          if p.token != f.token {
            var q :| q in ps[1..] && q.token == p.token;
            var k :| 0 <= k < |ps[1..]| && ps[1..][k] == q;
            assert ps[k + 1] == q;
          }
        }
        assert forall p <- ps[1..] :: p in ps;
      }
    }
  }

  lemma {:induction false} BookOnePerToken(journal: seq<Posting>, slug: string)
    ensures OnePerToken(BookOfPostings(journal, slug).positions)
  {
    if journal != [] {
      var init, last := journal[..|journal| - 1], journal[|journal| - 1];
      BookOnePerToken(init, slug);
      PostOnePerToken(BookOfPostings(init, slug).positions, last.fill);
    }
  }

  lemma {:induction false} SettleClosedForm(ps: seq<Position>, winner: string)
    requires OnePerToken(ps)
    ensures SettleTotal(ps, winner) == CashOf(ps) + Max(SharesOf(ps, winner), 0.0)
  {
    if ps != [] {
      assert OnePerToken(ps[1..]);
      SettleClosedForm(ps[1..], winner);
      if ps[0].token == winner { NoSuchToken(ps[1..], winner); }
    }
  }

  lemma {:induction false} NoSuchToken(ps: seq<Position>, token: string)
    requires forall p <- ps :: p.token != token
    ensures SharesOf(ps, token) == 0.0
  {
    if ps != [] {
      assert ps[0] in ps && forall p <- ps[1..] :: p in ps;
      NoSuchToken(ps[1..], token);
    }
  }

  // ---- positions, field by field

  function PositionOf(ps: seq<Position>, token: string): (p: Position)
    ensures p.token == token
  {
    if ps == [] then Position(token, 0.0, 0.0, 0.0, 0.0) else if ps[0].token == token then ps[0] else PositionOf(ps[1..], token)
  }

  /** What the postings of a slug add up to for one token. */
  function Tally(journal: seq<Posting>, slug: string, token: string): Position {
    if journal == [] then Position(token, 0.0, 0.0, 0.0, 0.0)
    else
      var f, t := journal[|journal| - 1].fill, Tally(journal[..|journal| - 1], slug, token);
      if journal[|journal| - 1].slug != slug || f.token != token then t
      else Position(token, t.shares + Shares(f), t.cash + Payment(f), t.feesUsdc + f.feeUsdc, t.feesShares + f.feeShares)
  }

  function CountOf(journal: seq<Posting>, slug: string): nat {
    if journal == [] then 0
    else CountOf(journal[..|journal| - 1], slug) + if journal[|journal| - 1].slug == slug then 1 else 0
  }

  lemma {:induction false} PostPosition(ps: seq<Position>, f: Fill, token: string)
    ensures PositionOf(Post(ps, f), token) == if f.token == token then PositionOf(ps, token).Apply(f) else PositionOf(ps, token)
  {
    if ps != [] && ps[0].token != f.token { PostPosition(ps[1..], f, token); }
  }

  /** A book counts its session's fills and holds of each token what they add up to. */
  lemma {:induction false} PositionsAreTallies(journal: seq<Posting>, slug: string, token: string)
    ensures BookOfPostings(journal, slug).nFills == CountOf(journal, slug)
    ensures PositionOf(BookOfPostings(journal, slug).positions, token) == Tally(journal, slug, token)
  {
    if journal != [] {
      var init, last := journal[..|journal| - 1], journal[|journal| - 1];
      PositionsAreTallies(init, slug, token);
      PostPosition(BookOfPostings(init, slug).positions, last.fill, token);
    }
  }

  /** What a window realises, straight from its fills: net cash, plus one dollar per winning share held. */
  lemma RealizedFromFills(journal: seq<Posting>, slug: string, winner: string)
    ensures SettleTotal(BookOfPostings(journal, slug).positions, winner)
            == NetCash(journal, slug) + Max(NetShares(journal, slug, winner), 0.0)
  {
    BookOnePerToken(journal, slug);
    SettleClosedForm(BookOfPostings(journal, slug).positions, winner);
    CashIsNetCash(journal, slug);
    SharesAreNetShares(journal, slug, winner);
  }
}
