/** What one walk does to the side it walks: its shape, the quantities it moves at any set of
    prices, and the account of each single order. */
module Walking {
  import opened Types
  import opened Matching
  import opened Greedy

  /** A set of prices: all, one, or those an order of `side` limited at `p` can trade with. */
  datatype Prices = Any | Only(p: Price) | Reach(side: Side, p: Price) {
    predicate Has(q: Price) {
      match this
      case Any => true
      case Only(p) => q == p
      case Reach(side, p) => Crosses(side, p, q)
    }
  }

  /** The remaining quantity resting at these prices. */
  function Resting(s: seq<OrderState>, at: Prices): nat {
    if s == [] then 0
    else (if at.Has(s[0].price) then s[0].remaining else 0) + Resting(s[1..], at)
  }

  /** The quantity traded by orders of `side` limited at these prices. */
  function TradedAt(trades: seq<Trade>, side: Side, at: Prices): nat {
    if trades == [] then 0
    else (if at.Has(trades[0].On(side).price) then trades[0].On(side).tradedQuantity else 0)
         + TradedAt(trades[1..], side, at)
  }

  /** The shape of a walk: it empties the first `k` orders of the other side, all of them at
      crossing prices and each in one trade, and stops there, or fills in part of one more. */
  lemma {:induction false} WalkShape(o: OrderState, theirs: seq<OrderState>) returns (k: nat)
    requires forall i :: 0 <= i < |theirs| ==> 0 < theirs[i].remaining
    ensures var w := Walk(o, theirs);
            && k <= |theirs| && k <= |w.trades|
            && (forall i :: 0 <= i < k ==>
                  && Crosses(o.side, o.price, theirs[i].price)
                  && w.trades[i] == MakeTrade(o.side, o, theirs[i], theirs[i].remaining))
            && (|w.trades| == k ==> w.theirs == theirs[k..])
            && (|w.trades| != k ==>
                  && |w.trades| == k + 1 && k < |theirs| && w.left.IsFilled()
                  && Crosses(o.side, o.price, theirs[k].price)
                  && var q := w.trades[k].On(o.side).tradedQuantity;
                     && 0 < q < theirs[k].remaining
                     && w.trades[k] == MakeTrade(o.side, o, theirs[k], q)
                     && w.theirs == [theirs[k].Fill(q)] + theirs[k + 1..])
            && (w.left.IsFilled() || w.theirs == [] || !Crosses(o.side, o.price, w.theirs[0].price))
    decreases |theirs|
  {
    if o.IsFilled() || theirs == [] || !Crosses(o.side, o.price, theirs[0].price)
       || o.remaining < theirs[0].remaining {
      k := 0;
    } else {
      var n := WalkShape(o.Fill(theirs[0].remaining), theirs[1..]);
      k := n + 1;
      assert theirs[1..][n..] == theirs[k..];
      if n < |theirs[1..]| {
        assert theirs[1..][n + 1..] == theirs[k + 1..];
      }
    }
  }

  /** At any set of prices, what the walk takes from the other side is what it trades there. */
  lemma {:induction false} WalkTakes(o: OrderState, theirs: seq<OrderState>, at: Prices)
    ensures var w := Walk(o, theirs);
            Resting(w.theirs, at) + TradedAt(w.trades, o.side.Opposite(), at) == Resting(theirs, at)
    decreases |theirs|
  {
    if !o.IsFilled() && theirs != [] && Crosses(o.side, o.price, theirs[0].price)
       && o.remaining >= theirs[0].remaining {
      WalkTakes(o.Fill(theirs[0].remaining), theirs[1..], at);
    }
  }

  /** The incoming order trades all that it loses, at its own limit price. */
  lemma {:induction false} WalkGives(o: OrderState, theirs: seq<OrderState>, at: Prices)
    ensures var w := Walk(o, theirs);
            TradedAt(w.trades, o.side, at) == if at.Has(o.price) then o.remaining - w.left.remaining else 0
    decreases |theirs|
  {
    if !o.IsFilled() && theirs != [] && Crosses(o.side, o.price, theirs[0].price)
       && o.remaining >= theirs[0].remaining {
      WalkGives(o.Fill(theirs[0].remaining), theirs[1..], at);
      WalkKeepsIdentity(o.Fill(theirs[0].remaining), theirs[1..]);
    }
  }

  lemma {:induction false} NothingInReach(side: Side, p: Price, theirs: seq<OrderState>)
    requires Sorted(side.Opposite(), theirs)
    requires theirs == [] || !Crosses(side, p, theirs[0].price)
    ensures Resting(theirs, Reach(side, p)) == 0
  {
    if theirs != [] {
      NothingInReach(side, p, theirs[1..]);
    }
  }

  /** Closed form of the volume: the smaller of what the order wants and what crosses. */
  lemma {:induction false} WalkVolume(o: OrderState, theirs: seq<OrderState>)
    requires Sorted(o.side.Opposite(), theirs)
    ensures var crossing := Resting(theirs, Reach(o.side, o.price));
            o.remaining - Walk(o, theirs).left.remaining == if o.remaining <= crossing then o.remaining else crossing
    decreases |theirs|
  {
    if theirs == [] || !Crosses(o.side, o.price, theirs[0].price) {
      NothingInReach(o.side, o.price, theirs);
    } else if !o.IsFilled() && o.remaining >= theirs[0].remaining {
      WalkVolume(o.Fill(theirs[0].remaining), theirs[1..]);
    }
  }

  lemma {:induction false} UntouchedTail(o: OrderState, theirs: seq<OrderState>, j: nat)
    requires Sorted(o.side.Opposite(), theirs) && j <= |theirs|
    requires forall i :: j <= i < |theirs| ==> !Crosses(o.side, o.price, theirs[i].price)
    requires forall i :: 0 <= i < j ==> Crosses(o.side, o.price, theirs[i].price)
    ensures var w := Walk(o, theirs);
            |w.theirs| >= |theirs| - j && w.theirs[|w.theirs| - (|theirs| - j)..] == theirs[j..]
    decreases |theirs|
  {
    if !o.IsFilled() && j > 0 {
      if o.remaining >= theirs[0].remaining {
        UntouchedTail(o.Fill(theirs[0].remaining), theirs[1..], j - 1);
      } else {
        var w := Walk(o, theirs);
        assert w.theirs[j..] == theirs[j..];
      }
    }
  }

  /** The account of each other order: what it loses is what the trades name. */
  lemma {:induction false} WalkAccount(o: OrderState, theirs: seq<OrderState>, id: OrderId)
    requires Distinct(theirs) && id != o.id
    ensures var w := Walk(o, theirs);
            RemainingOf(w.theirs, id) + Traded(w.trades, id) == RemainingOf(theirs, id)
    decreases |theirs|
  {
    if !o.IsFilled() && theirs != [] && Crosses(o.side, o.price, theirs[0].price)
       && o.remaining >= theirs[0].remaining {
      WalkAccount(o.Fill(theirs[0].remaining), theirs[1..], id);
      if id == theirs[0].id {
        NotListed(theirs[1..], id);
        RemainingOfNone(theirs[1..], id);
      }
    }
  }

  lemma NotListed(s: seq<OrderState>, id: OrderId)
    requires forall i :: 0 <= i < |s| ==> s[i].id != id
    ensures id !in IdsOf(s)
  {
    InIdsOf(s, id);
  }

  /** The account of the incoming order itself. */
  lemma {:induction false} WalkOwnAccount(o: OrderState, theirs: seq<OrderState>)
    requires o.id !in IdsOf(theirs)
    ensures var w := Walk(o, theirs);
            w.left.remaining + Traded(w.trades, o.id) == o.remaining
    decreases |theirs|
  {
    if !o.IsFilled() && theirs != [] && Crosses(o.side, o.price, theirs[0].price)
       && o.remaining >= theirs[0].remaining {
      WalkOwnAccount(o.Fill(theirs[0].remaining), theirs[1..]);
    }
  }
}
