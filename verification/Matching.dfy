/** The matching engine on flattened sides. A side of the book is the sequence of its resting
    orders in priority order: best price first, then arrival. `Match`, `Add` and `Cancel` take
    the same decisions as order_book/src/order_book.cpp (insert first, match the two best
    orders until the sides no longer cross, then remove a Fill-And-Kill remainder); the class
    in OrderBook.dfy is proved to compute exactly these functions. */
module Matching {
  import opened Types

  datatype OrderState = OrderState(
    id: OrderId, side: Side, price: Price, kind: OrderType, initial: Quantity, remaining: Quantity)
  {
    predicate IsFilled() { remaining == 0 }

    function Fill(q: Quantity): OrderState
      requires q <= remaining
    {
      this.(remaining := remaining - q)
    }
  }

  datatype Book = Book(bids: seq<OrderState>, asks: seq<OrderState>) {
    function On(side: Side): seq<OrderState> { if side.Buy? then bids else asks }

    function With(side: Side, s: seq<OrderState>): Book {
      if side.Buy? then this.(bids := s) else this.(asks := s)
    }

    function Ids(): set<OrderId> { IdsOf(bids) + IdsOf(asks) }
  }

  const EMPTY := Book([], [])

  function IdsOf(s: seq<OrderState>): set<OrderId> {
    if s == [] then {} else {s[0].id} + IdsOf(s[1..])
  }

  lemma {:induction false} InIdsOf(s: seq<OrderState>, id: OrderId)
    ensures id in IdsOf(s) <==> exists i :: 0 <= i < |s| && s[i].id == id
  {
    if s != [] {
      InIdsOf(s[1..], id);
      if i :| 0 <= i < |s| && s[i].id == id {
        assert i == 0 || s[1..][i - 1].id == id;
      }
    }
  }

  /** Can an order of `side` limited at `p` trade against a resting price `q`? */
  predicate Crosses(side: Side, p: Price, q: Price) {
    if side.Buy? then p >= q else p <= q
  }

  /** Is price `p` strictly ahead of price `q` on `side`? */
  predicate Better(side: Side, p: Price, q: Price) {
    if side.Buy? then p > q else p < q
  }

  /** `o` goes behind every order whose price is at least as good, ahead of all worse ones. */
  function Insert(s: seq<OrderState>, o: OrderState): seq<OrderState> {
    if s == [] || Better(o.side, o.price, s[0].price) then [o] + s
    else [s[0]] + Insert(s[1..], o)
  }

  function Remove(s: seq<OrderState>, id: OrderId): seq<OrderState> {
    if s == [] then []
    else if s[0].id == id then s[1..]
    else [s[0]] + Remove(s[1..], id)
  }

  function RemainingOf(s: seq<OrderState>, id: OrderId): Quantity {
    if s == [] then 0
    else if s[0].id == id then s[0].remaining
    else RemainingOf(s[1..], id)
  }

  function DropFilled(o: OrderState, tail: seq<OrderState>): seq<OrderState> {
    if o.IsFilled() then tail else [o] + tail
  }

  function Info(o: OrderState, q: Quantity): TradeInfo { TradeInfo(o.id, o.price, q) }

  /** The trade of `q` between `mine`, of side `side`, and `other` on the opposite side. */
  function MakeTrade(side: Side, mine: OrderState, other: OrderState, q: Quantity): Trade {
    if side.Buy? then Trade(Info(mine, q), Info(other, q)) else Trade(Info(other, q), Info(mine, q))
  }

  datatype MatchResult = MatchResult(mine: seq<OrderState>, theirs: seq<OrderState>, trades: seq<Trade>)

  /** Match the two best orders again and again while the sides cross. `mine` is the flattened
      side `side`, `theirs` the opposite one; nothing is assumed of either. */
  function Match(side: Side, mine: seq<OrderState>, theirs: seq<OrderState>): MatchResult
    decreases |mine| + |theirs|
  {
    if mine == [] || theirs == [] || !Crosses(side, mine[0].price, theirs[0].price) then
      MatchResult(mine, theirs, [])
    else
      var q := Min(mine[0].remaining, theirs[0].remaining);
      var rest := Match(side, DropFilled(mine[0].Fill(q), mine[1..]), DropFilled(theirs[0].Fill(q), theirs[1..]));
      rest.(trades := [MakeTrade(side, mine[0], theirs[0], q)] + rest.trades)
  }

  predicate CanMatch(b: Book, side: Side, price: Price) {
    var theirs := b.On(side.Opposite());
    theirs != [] && Crosses(side, price, theirs[0].price)
  }

  /** What AddOrder leaves behind: the book, the trades, whether the order was taken at all
      (false is the null pointer of a duplicate id) and what is left unfilled of it. */
  datatype AddResult = AddResult(book: Book, trades: seq<Trade>, accepted: bool, left: Quantity)

  function Add(b: Book, o: OrderState): AddResult {
    if o.id in b.Ids() then AddResult(b, [], false, o.remaining)
    else if o.kind.FillAndKill? && !CanMatch(b, o.side, o.price) then AddResult(b, [], true, o.remaining)
    else
      var m := Match(o.side, Insert(b.On(o.side), o), b.On(o.side.Opposite()));
      var left := RemainingOf(m.mine, o.id);
      var mine := if o.kind.FillAndKill? && left != 0 then Remove(m.mine, o.id) else m.mine;
      AddResult(b.With(o.side, mine).With(o.side.Opposite(), m.theirs), m.trades, true, left)
  }

  /** Cancelling an unknown id changes nothing. */
  function Cancel(b: Book, id: OrderId): Book {
    if id in IdsOf(b.bids) then b.(bids := Remove(b.bids, id))
    else if id in IdsOf(b.asks) then b.(asks := Remove(b.asks, id))
    else b
  }

  /** The quantity that `trades` fill of order `id`, on either side. */
  function Traded(trades: seq<Trade>, id: OrderId): nat {
    if trades == [] then 0
    else TradedIn(trades[0], id) + Traded(trades[1..], id)
  }

  function TradedIn(t: Trade, id: OrderId): nat {
    (if t.bid.orderId == id then t.bid.tradedQuantity else 0) +
    (if t.ask.orderId == id then t.ask.tradedQuantity else 0)
  }

  function Volume(trades: seq<Trade>): nat {
    if trades == [] then 0 else trades[0].bid.tradedQuantity + Volume(trades[1..])
  }

  /** The two sides play the same part: matching seen from the asks is matching seen from the
      bids with the sides exchanged. */
  lemma {:induction false} MatchFlip(side: Side, mine: seq<OrderState>, theirs: seq<OrderState>)
    ensures var r := Match(side, mine, theirs);
            Match(side.Opposite(), theirs, mine) == MatchResult(r.theirs, r.mine, r.trades)
    decreases |mine| + |theirs|
  {
    if mine != [] && theirs != [] && Crosses(side, mine[0].price, theirs[0].price) {
      var q := Min(mine[0].remaining, theirs[0].remaining);
      MatchFlip(side, DropFilled(mine[0].Fill(q), mine[1..]), DropFilled(theirs[0].Fill(q), theirs[1..]));
    }
  }

  /** A resting order is found under its id when no other order has it. */
  lemma {:induction false} RemainingAt(s: seq<OrderState>, i: nat)
    requires i < |s| && forall j :: 0 <= j < |s| && s[j].id == s[i].id ==> j == i
    ensures RemainingOf(s, s[i].id) == s[i].remaining
  {
    if i != 0 {
      RemainingAt(s[1..], i - 1);
    }
  }

  lemma {:induction false} RemainingOfNone(s: seq<OrderState>, id: OrderId)
    requires id !in IdsOf(s)
    ensures RemainingOf(s, id) == 0
  {
    if s != [] {
      RemainingOfNone(s[1..], id);
    }
  }
}
