/** The reference: an incoming order walks the other side of an uncrossed book, best order
    first, until it is filled or the next order does not cross; what is left of a
    Good-Till-Cancel order rests. `AddIsGreedy` proves that the insert-then-match engine of
    module Matching does exactly this on every book that keeps the invariant `Inv`. */
module Greedy {
  import opened Types
  import opened Matching

  ghost predicate Sorted(side: Side, s: seq<OrderState>) {
    forall i, j :: 0 <= i < j < |s| ==> !Better(side, s[j].price, s[i].price)
  }

  ghost predicate Distinct(s: seq<OrderState>) {
    forall i, j :: 0 <= i < j < |s| ==> s[i].id != s[j].id
  }

  ghost predicate Disjoint(s: seq<OrderState>, t: seq<OrderState>) {
    forall i, j :: 0 <= i < |s| && 0 <= j < |t| ==> s[i].id != t[j].id
  }

  /** What may rest: an order of that side, Good-Till-Cancel, neither filled nor overfilled. */
  predicate MayRest(side: Side, o: OrderState) {
    o.side == side && o.kind.GoodTillCancel? && 0 < o.remaining <= o.initial
  }

  ghost predicate SideOk(side: Side, s: seq<OrderState>) {
    Sorted(side, s) && Distinct(s) && forall i :: 0 <= i < |s| ==> MayRest(side, s[i])
  }

  predicate Uncrossed(side: Side, mine: seq<OrderState>, theirs: seq<OrderState>) {
    mine == [] || theirs == [] || !Crosses(side, mine[0].price, theirs[0].price)
  }

  /** The invariant of every reachable book; in particular best bid < best ask. */
  ghost predicate Inv(b: Book) {
    && SideOk(Buy, b.bids) && SideOk(Sell, b.asks)
    && Disjoint(b.bids, b.asks)
    && Uncrossed(Buy, b.bids, b.asks)
  }

  /** `Inv`, seen from either side. */
  ghost predicate InvOn(side: Side, mine: seq<OrderState>, theirs: seq<OrderState>) {
    && SideOk(side, mine) && SideOk(side.Opposite(), theirs)
    && Disjoint(mine, theirs)
    && Uncrossed(side, mine, theirs)
  }

  lemma InvFrom(side: Side, b: Book)
    ensures Inv(b) <==> InvOn(side, b.On(side), b.On(side.Opposite()))
  {
  }

  /** `Inv` in numbers: bids fall, asks rise, and every bid is below every ask. */
  lemma InvInNumbers(b: Book, i: nat, j: nat)
    requires Inv(b)
    ensures i < j < |b.bids| ==> b.bids[i].price >= b.bids[j].price
    ensures i < j < |b.asks| ==> b.asks[i].price <= b.asks[j].price
    ensures i < |b.bids| && j < |b.asks| ==> b.bids[i].price < b.asks[j].price
  {
    assert i < |b.bids| ==> b.bids[i].price <= b.bids[0].price;
    assert j < |b.asks| ==> b.asks[0].price <= b.asks[j].price;
  }

  datatype WalkResult = WalkResult(left: OrderState, theirs: seq<OrderState>, trades: seq<Trade>)

  function Walk(o: OrderState, theirs: seq<OrderState>): WalkResult
    decreases |theirs|
  {
    if o.IsFilled() || theirs == [] || !Crosses(o.side, o.price, theirs[0].price) then
      WalkResult(o, theirs, [])
    else if o.remaining < theirs[0].remaining then
      var q := o.remaining;
      WalkResult(o.Fill(q), [theirs[0].Fill(q)] + theirs[1..], [MakeTrade(o.side, o, theirs[0], q)])
    else
      var q := theirs[0].remaining;
      var w := Walk(o.Fill(q), theirs[1..]);
      w.(trades := [MakeTrade(o.side, o, theirs[0], q)] + w.trades)
  }

  function GreedyAdd(b: Book, o: OrderState): AddResult {
    if o.id in b.Ids() then AddResult(b, [], false, o.remaining)
    else
      var w := Walk(o, b.On(o.side.Opposite()));
      var rests := o.kind.GoodTillCancel? && !w.left.IsFilled();
      var mine := if rests then Insert(b.On(o.side), w.left) else b.On(o.side);
      AddResult(b.With(o.side, mine).With(o.side.Opposite(), w.theirs), w.trades, true, w.left.remaining)
  }

  lemma {:induction false} WalkKeepsIdentity(o: OrderState, theirs: seq<OrderState>)
    ensures var l := Walk(o, theirs).left; l == o.(remaining := l.remaining) && l.remaining <= o.remaining
    decreases |theirs|
  {
    if !o.IsFilled() && theirs != [] && Crosses(o.side, o.price, theirs[0].price)
       && o.remaining >= theirs[0].remaining {
      WalkKeepsIdentity(o.Fill(theirs[0].remaining), theirs[1..]);
    }
  }

  /** An order in front of a side that does not cross matches as it walks. */
  lemma {:induction false} FrontMatchesAsWalk(o: OrderState, mine: seq<OrderState>, theirs: seq<OrderState>)
    requires 0 < o.remaining && Uncrossed(o.side, mine, theirs) && SideOk(o.side.Opposite(), theirs)
    ensures var w := Walk(o, theirs);
            Match(o.side, [o] + mine, theirs) == MatchResult(DropFilled(w.left, mine), w.theirs, w.trades)
    decreases |theirs|
  {
    if theirs != [] && Crosses(o.side, o.price, theirs[0].price) {
      var q := Min(o.remaining, theirs[0].remaining);
      assert ([o] + mine)[1..] == mine;
      if q < o.remaining {
        FrontMatchesAsWalk(o.Fill(q), mine, theirs[1..]);
      }
    }
  }

  lemma InsertHead(s: seq<OrderState>, o: OrderState)
    ensures Insert(s, o) != [] && (Insert(s, o)[0] == o || (s != [] && Insert(s, o)[0] == s[0]))
  {
  }

  /** On an uncrossed book, insert-then-match is the walk. */
  lemma InsertMatchesAsWalk(o: OrderState, mine: seq<OrderState>, theirs: seq<OrderState>)
    requires 0 < o.remaining && InvOn(o.side, mine, theirs)
    ensures var w := Walk(o, theirs);
            Match(o.side, Insert(mine, o), theirs)
            == MatchResult(if w.left.IsFilled() then mine else Insert(mine, w.left), w.theirs, w.trades)
  {
    WalkKeepsIdentity(o, theirs);
    if theirs != [] && Crosses(o.side, o.price, theirs[0].price) {
      assert Insert(mine, o) == [o] + mine;
      FrontMatchesAsWalk(o, mine, theirs);
    } else {
      InsertHead(mine, o);
    }
  }

  lemma {:induction false} InsertThenFind(s: seq<OrderState>, o: OrderState)
    requires o.id !in IdsOf(s)
    ensures RemainingOf(Insert(s, o), o.id) == o.remaining
    ensures Remove(Insert(s, o), o.id) == s
  {
    if s != [] && !Better(o.side, o.price, s[0].price) {
      InsertThenFind(s[1..], o);
    }
  }

  /** Refinement: for every book that keeps the invariant and every order with something to
      fill, the engine gives the trades, the book and the rest of the greedy walk. */
  lemma AddIsGreedy(b: Book, o: OrderState)
    requires Inv(b) && 0 < o.remaining
    ensures Add(b, o) == GreedyAdd(b, o)
  {
    if o.id !in b.Ids() {
      var mine, theirs := b.On(o.side), b.On(o.side.Opposite());
      var w := Walk(o, theirs);
      InvFrom(o.side, b);
      InsertMatchesAsWalk(o, mine, theirs);
      WalkKeepsIdentity(o, theirs);
      InsertThenFind(mine, w.left);
      RemainingOfNone(mine, o.id);
    }
  }
}
