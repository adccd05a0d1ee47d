/** Who trades: price-time priority of one AddOrder, bounds on the number of trades, and the
    one kind of order that breaks the invariant. */
module Priority {
  import opened Types
  import opened Matching
  import opened Greedy
  import opened Walking
  import opened Reachable

  /** An addition, seen from the other side. */
  lemma AddWalks(b: Book, o: OrderState)
    requires Inv(b) && 0 < o.remaining && o.id !in b.Ids()
    ensures var r, theirs := Add(b, o), b.On(o.side.Opposite()); var w := Walk(o, theirs);
            && r.trades == w.trades && r.book.On(o.side.Opposite()) == w.theirs && r.left == w.left.remaining
            && forall i :: 0 <= i < |theirs| ==> 0 < theirs[i].remaining
  {
    AddIsGreedy(b, o);
    InvFrom(o.side, b);
    hide Add, Walk, Inv, Sorted, Distinct, Disjoint;
    forall i | 0 <= i < |b.On(o.side.Opposite())| ensures 0 < b.On(o.side.Opposite())[i].remaining {
      assert MayRest(o.side.Opposite(), b.On(o.side.Opposite())[i]);
    }
  }

  /** Every trade pairs the incoming order with an earlier resting order at a crossing price,
      in priority order and each resting order at most once; all but the last such order are
      filled completely, and the rest of the side stays as it was. `k` is the number of orders
      filled completely. */
  lemma AddFollowsPriority(b: Book, o: OrderState) returns (k: nat)
    requires Inv(b) && 0 < o.remaining && o.id !in b.Ids()
    ensures var r := Add(b, o); var theirs, theirs' := b.On(o.side.Opposite()), r.book.On(o.side.Opposite());
            && k <= |r.trades| <= k + 1 && |r.trades| <= |theirs|
            && (forall i :: 0 <= i < |r.trades| ==>
                  && Crosses(o.side, o.price, theirs[i].price)
                  && var q := r.trades[i].On(o.side).tradedQuantity;
                     && r.trades[i] == MakeTrade(o.side, o, theirs[i], q)
                     && (if i < k then q == theirs[i].remaining else 0 < q < theirs[i].remaining))
            && (if |r.trades| == k then theirs' == theirs[k..]
                else r.left == 0
                     && theirs' == [theirs[k].Fill(r.trades[k].On(o.side).tradedQuantity)] + theirs[k + 1..])
            && (r.left == 0 || theirs' == [] || !Crosses(o.side, o.price, theirs'[0].price))
  {
    hide Add, GreedyAdd, Walk, Inv;
    AddWalks(b, o);
    k := WalkShape(o, b.On(o.side.Opposite()));
  }

  /** The remaining quantity in priority order ahead of order `id`. */
  function Before(s: seq<OrderState>, id: OrderId): nat {
    if s == [] || s[0].id == id then 0 else s[0].remaining + Before(s[1..], id)
  }

  /** A walk trades with exactly the crossing orders that its quantity reaches. */
  lemma {:induction false} WalkReaches(o: OrderState, theirs: seq<OrderState>, i: nat)
    requires SideOk(o.side.Opposite(), theirs) && i < |theirs| && theirs[i].id != o.id
    ensures 0 < Traded(Walk(o, theirs).trades, theirs[i].id)
            <==> Crosses(o.side, o.price, theirs[i].price) && Before(theirs, theirs[i].id) < o.remaining
    decreases |theirs|
  {
    assert MayRest(o.side.Opposite(), theirs[0]) && MayRest(o.side.Opposite(), theirs[i]);
    if o.IsFilled() || !Crosses(o.side, o.price, theirs[0].price) {
      assert i > 0 ==> !Better(o.side.Opposite(), theirs[i].price, theirs[0].price);
    } else if o.remaining >= theirs[0].remaining && i != 0 {
      WalkReaches(o.Fill(theirs[0].remaining), theirs[1..], i - 1);
    }
  }

  /** Adding `o` trades with exactly those resting orders. */
  lemma AddReaches(b: Book, o: OrderState, i: nat)
    requires Inv(b) && 0 < o.remaining && o.id !in b.Ids() && i < |b.On(o.side.Opposite())|
    ensures var x := b.On(o.side.Opposite())[i];
            0 < Traded(Add(b, o).trades, x.id)
            <==> Crosses(o.side, o.price, x.price) && Before(b.On(o.side.Opposite()), x.id) < o.remaining
  {
    AddIsGreedy(b, o);
    InvFrom(o.side, b);
    IdsAt(b.On(o.side.Opposite()), i);
    WalkReaches(o, b.On(o.side.Opposite()), i);
  }

  lemma {:induction false} TradedAtLeast(trades: seq<Trade>, i: nat, id: OrderId)
    requires i < |trades|
    ensures TradedIn(trades[i], id) <= Traded(trades, id)
  {
    if i != 0 {
      TradedAtLeast(trades[1..], i - 1, id);
    }
  }

  /** The `i`-th trade of an addition is with the `i`-th order of the other side, which is reached. */
  lemma TradeReaches(b: Book, o: OrderState, i: nat)
    requires Inv(b) && 0 < o.remaining && o.id !in b.Ids() && i < |Add(b, o).trades|
    ensures var theirs := b.On(o.side.Opposite());
            && i < |theirs| && Add(b, o).trades[i].On(o.side.Opposite()).orderId == theirs[i].id
            && Crosses(o.side, o.price, theirs[i].price) && Before(theirs, theirs[i].id) < o.remaining
            && CanMatch(b, o.side, o.price)
  {
    var theirs := b.On(o.side.Opposite());
    var k := AddFollowsPriority(b, o);
    InvFrom(o.side, b);
    assert MayRest(o.side.Opposite(), theirs[i]);
    TradedAtLeast(Add(b, o).trades, i, theirs[i].id);
    AddReaches(b, o, i);
    hide Add, Inv, Before, Traded;
    assert Crosses(o.side, o.price, theirs[0].price);
  }

  /** Orders that do not cross keep their quantity and their place, on both sides: on the other
      side they stay its tail, on the own side only the incoming order is new. */
  lemma NonCrossingUntouched(b: Book, o: OrderState, j: nat)
    requires Inv(b) && 0 < o.remaining && o.id !in b.Ids()
    requires var theirs := b.On(o.side.Opposite());
             && j <= |theirs|
             && (forall i :: 0 <= i < j ==> Crosses(o.side, o.price, theirs[i].price))
             && (forall i :: j <= i < |theirs| ==> !Crosses(o.side, o.price, theirs[i].price))
    ensures var r := Add(b, o); var theirs, theirs' := b.On(o.side.Opposite()), r.book.On(o.side.Opposite());
            && |theirs'| >= |theirs| - j && theirs'[|theirs'| - (|theirs| - j)..] == theirs[j..]
            && Remove(r.book.On(o.side), o.id) == b.On(o.side)
  {
    AddIsGreedy(b, o);
    InvFrom(o.side, b);
    var mine, theirs := b.On(o.side), b.On(o.side.Opposite());
    UntouchedTail(o, theirs, j);
    WalkKeepsIdentity(o, theirs);
    InsertThenFind(mine, Walk(o, theirs).left);
    RemoveAbsent(mine, o.id);
  }

  /** On any two sides, crossed or not and whatever the quantities: each trade takes at least one
      and at most two orders out, so the capacity reserved from the size is enough. */
  lemma {:induction false} TradesAreBounded(side: Side, mine: seq<OrderState>, theirs: seq<OrderState>)
    ensures var r := Match(side, mine, theirs);
            var gone := |mine| + |theirs| - |r.mine| - |r.theirs|;
            |r.trades| <= gone <= 2 * |r.trades|
    decreases |mine| + |theirs|
  {
    if mine != [] && theirs != [] && Crosses(side, mine[0].price, theirs[0].price) {
      var q := Min(mine[0].remaining, theirs[0].remaining);
      TradesAreBounded(side, DropFilled(mine[0].Fill(q), mine[1..]), DropFilled(theirs[0].Fill(q), theirs[1..]));
    }
  }

  /** The empty book is enough for an order of quantity 0 to break the invariant. */
  lemma ZeroOnEmptyBook()
    ensures !Inv(Add(EMPTY, OrderState(1, Buy, 10, GoodTillCancel, 0, 0)).book)
  {
    ZeroQuantityBreaks(EMPTY, OrderState(1, Buy, 10, GoodTillCancel, 0, 0));
  }

  /** An order of quantity 0 that meets a crossing order, or may not rest, leaves nothing: at
      most one trade, of nothing, and the book as it was. */
  lemma AddZero(b: Book, o: OrderState)
    requires Inv(b) && o.remaining == 0 && o.id !in b.Ids()
    requires o.kind.FillAndKill? || CanMatch(b, o.side, o.price)
    ensures var r := Add(b, o);
            && r.book == b && r.accepted && r.left == 0 && |r.trades| <= 1
            && forall side: Side, i :: 0 <= i < |r.trades| ==> r.trades[i].On(side).tradedQuantity == 0
  {
    if CanMatch(b, o.side, o.price) {
      var mine, theirs := b.On(o.side), b.On(o.side.Opposite());
      InvFrom(o.side, b);
      RemainingOfNone(mine, o.id);
      assert Insert(mine, o) == [o] + mine;
      assert ([o] + mine)[1..] == mine && [theirs[0].Fill(0)] + theirs[1..] == theirs;
      assert Match(o.side, mine, theirs) == MatchResult(mine, theirs, []);
    }
  }

  /** Any other comes to rest with nothing to fill. */
  lemma AddZeroRests(b: Book, o: OrderState)
    requires Inv(b) && o.remaining == 0 && o.id !in b.Ids()
    requires o.kind.GoodTillCancel? && !CanMatch(b, o.side, o.price)
    ensures Add(b, o) == AddResult(b.With(o.side, Insert(b.On(o.side), o)), [], true, 0)
  {
    InvFrom(o.side, b);
    InsertHead(b.On(o.side), o);
    InsertThenFind(b.On(o.side), o);
  }

  /** Nothing rejects quantity zero. Adding such an order keeps the invariant exactly when it is
      refused, is Fill-And-Kill, or meets a crossing order; else it rests with nothing to fill. */
  lemma ZeroQuantityBreaks(b: Book, o: OrderState)
    requires Inv(b) && o.remaining == o.initial == 0
    ensures Inv(Add(b, o).book) <==>
            o.id in b.Ids() || o.kind.FillAndKill? || CanMatch(b, o.side, o.price)
  {
    if o.id !in b.Ids() {
      if o.kind.FillAndKill? || CanMatch(b, o.side, o.price) {
        AddZero(b, o);
      } else {
        var mine := b.On(o.side);
        AddZeroRests(b, o);
        InvFrom(o.side, Add(b, o).book);
        var k := InsertAt(mine, o);
        assert Insert(mine, o)[k] == o;
      }
    }
  }
}
