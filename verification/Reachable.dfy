/** Every public operation keeps the invariant, and runs of operations conserve quantity. */
module Reachable {
  import opened Types
  import opened Matching
  import opened Greedy
  import opened Walking

  /** Where an insertion goes: behind all orders at least as good, before all worse ones. */
  lemma {:induction false} InsertAt(s: seq<OrderState>, o: OrderState) returns (k: nat)
    ensures k <= |s| && Insert(s, o) == s[..k] + [o] + s[k..]
    ensures forall i :: 0 <= i < k ==> !Better(o.side, o.price, s[i].price)
    ensures k < |s| ==> Better(o.side, o.price, s[k].price)
  {
    if s == [] || Better(o.side, o.price, s[0].price) {
      k := 0;
    } else {
      k := InsertAt(s[1..], o);
      k := k + 1;
      assert s[..k] == [s[0]] + s[1..][..k - 1] && s[1..][k - 1..] == s[k..];
    }
  }

  lemma {:induction false} RemoveAt(s: seq<OrderState>, id: OrderId) returns (k: nat)
    requires id in IdsOf(s)
    ensures k < |s| && s[k].id == id && Remove(s, id) == s[..k] + s[k + 1..]
  {
    if s[0].id == id {
      k := 0;
    } else {
      k := RemoveAt(s[1..], id);
      k := k + 1;
      assert s[..k] == [s[0]] + s[1..][..k - 1] && s[1..][k..] == s[k + 1..];
    }
  }

  lemma IdsAt(s: seq<OrderState>, i: nat)
    requires i < |s|
    ensures s[i].id in IdsOf(s)
  {
    InIdsOf(s, s[i].id);
  }

  /** `t` is `s` with `o` put in at `k`. */
  ghost predicate Gains(s: seq<OrderState>, t: seq<OrderState>, k: nat, o: OrderState) {
    && k < |t| == |s| + 1 && t[k] == o
    && forall i :: 0 <= i < |t| && i != k ==> t[i] == s[if i < k then i else i - 1]
  }

  lemma GainingSorted(side: Side, s: seq<OrderState>, t: seq<OrderState>, k: nat, o: OrderState)
    requires Sorted(side, s) && Gains(s, t, k, o)
    requires forall i :: 0 <= i < k ==> !Better(side, o.price, s[i].price)
    requires k < |s| ==> Better(side, o.price, s[k].price)
    ensures Sorted(side, t)
  {
    forall i, j | 0 <= i < j < |t| ensures !Better(side, t[j].price, t[i].price) {
      if i == k {
        assert j - 1 > k ==> !Better(side, s[j - 1].price, s[k].price);
      }
    }
  }

  lemma GainingDistinct(s: seq<OrderState>, t: seq<OrderState>, k: nat, o: OrderState)
    requires Distinct(s) && Gains(s, t, k, o) && forall i :: 0 <= i < |s| ==> s[i].id != o.id
    ensures Distinct(t)
  {
  }

  lemma InsertKeeps(side: Side, s: seq<OrderState>, o: OrderState)
    requires SideOk(side, s) && MayRest(side, o) && o.id !in IdsOf(s)
    ensures SideOk(side, Insert(s, o))
  {
    var k := InsertAt(s, o);
    var t := Insert(s, o);
    forall i | 0 <= i < |s| ensures s[i].id != o.id {
      IdsAt(s, i);
    }
    assert Gains(s, t, k, o);
    GainingSorted(side, s, t, k, o);
    GainingDistinct(s, t, k, o);
    hide Sorted, Distinct, Insert;
    assert forall i :: 0 <= i < |t| ==> MayRest(side, t[i]);
  }

  lemma {:induction false} InsertIds(s: seq<OrderState>, o: OrderState)
    ensures IdsOf(Insert(s, o)) == IdsOf(s) + {o.id}
  {
    if s != [] && !Better(o.side, o.price, s[0].price) {
      InsertIds(s[1..], o);
    }
  }

  lemma DisjointIds(s: seq<OrderState>, t: seq<OrderState>)
    ensures Disjoint(s, t) <==> IdsOf(s) !! IdsOf(t)
  {
    if Disjoint(s, t) {
      forall id | id in IdsOf(s) ensures id !in IdsOf(t) {
        InIdsOf(s, id);
        InIdsOf(t, id);
      }
    } else {
      var i, j :| 0 <= i < |s| && 0 <= j < |t| && s[i].id == t[j].id;
      IdsAt(s, i);
      IdsAt(t, j);
    }
  }

  /** `t` is `s` without its first `k` orders, up to smaller remaining quantities. */
  ghost predicate TailOf(s: seq<OrderState>, t: seq<OrderState>, k: nat) {
    && |s| == k + |t|
    && forall i :: 0 <= i < |t| ==>
         t[i] == s[k + i].(remaining := t[i].remaining) && 0 < t[i].remaining <= s[k + i].remaining
  }

  lemma TailKeeps(side: Side, s: seq<OrderState>, t: seq<OrderState>, k: nat)
    requires SideOk(side, s) && TailOf(s, t, k)
    ensures SideOk(side, t) && IdsOf(t) <= IdsOf(s)
    ensures t != [] ==> s != [] && !Better(side, t[0].price, s[0].price)
  {
    TailSorted(side, s, t, k);
    TailDistinct(s, t, k);
    TailIds(s, t, k);
    hide Sorted, Distinct;
    assert forall i :: 0 <= i < |t| ==> MayRest(side, t[i]);
  }

  lemma TailSorted(side: Side, s: seq<OrderState>, t: seq<OrderState>, k: nat)
    requires Sorted(side, s) && TailOf(s, t, k)
    ensures Sorted(side, t)
    ensures t != [] ==> s != [] && !Better(side, t[0].price, s[0].price)
  {
    if t != [] {
      assert t[0].price == s[k].price;
    }
  }

  lemma TailDistinct(s: seq<OrderState>, t: seq<OrderState>, k: nat)
    requires Distinct(s) && TailOf(s, t, k)
    ensures Distinct(t)
  {
  }

  lemma TailIds(s: seq<OrderState>, t: seq<OrderState>, k: nat)
    requires TailOf(s, t, k)
    ensures IdsOf(t) <= IdsOf(s)
  {
    forall id | id in IdsOf(t) ensures id in IdsOf(s) {
      InIdsOf(t, id);
      var i :| 0 <= i < |t| && t[i].id == id;
      IdsAt(s, k + i);
    }
  }

  /** A walk leaves a tail. */
  lemma WalkLeavesTail(o: OrderState, theirs: seq<OrderState>) returns (k: nat)
    requires forall i :: 0 <= i < |theirs| ==> 0 < theirs[i].remaining
    ensures TailOf(theirs, Walk(o, theirs).theirs, k)
    ensures var w := Walk(o, theirs);
            w.left.IsFilled() || w.theirs == [] || !Crosses(o.side, o.price, w.theirs[0].price)
  {
    k := WalkShape(o, theirs);
    hide Walk, Crosses;
  }

  /** After the walk the other side is still in order, its ids are among the old ones, and it
      is nowhere ahead of where it was. */
  lemma WalkKeeps(o: OrderState, theirs: seq<OrderState>)
    requires SideOk(o.side.Opposite(), theirs)
    ensures var w := Walk(o, theirs);
            && SideOk(o.side.Opposite(), w.theirs)
            && IdsOf(w.theirs) <= IdsOf(theirs)
            && (w.theirs != [] ==> theirs != [] && !Better(o.side.Opposite(), w.theirs[0].price, theirs[0].price))
            && (w.left.IsFilled() || w.theirs == [] || !Crosses(o.side, o.price, w.theirs[0].price))
  {
    assert forall i :: 0 <= i < |theirs| ==> MayRest(o.side.Opposite(), theirs[i]);
    hide Sorted, Distinct, TailOf, Walk, Crosses, Better, SideOk;
    var k := WalkLeavesTail(o, theirs);
    TailKeeps(o.side.Opposite(), theirs, Walk(o, theirs).theirs, k);
  }

  /** Adding any order with something to fill keeps the invariant: best bid stays below best
      ask, ids stay unique, and only unfilled Good-Till-Cancel orders rest. */
  lemma AddKeepsInv(b: Book, o: OrderState)
    requires Inv(b) && 0 < o.remaining <= o.initial
    ensures Inv(Add(b, o).book)
  {
    AddIsGreedy(b, o);
    if o.id !in b.Ids() {
      var mine, theirs := b.On(o.side), b.On(o.side.Opposite());
      var w := Walk(o, theirs);
      InvFrom(o.side, b);
      WalkKeeps(o, theirs);
      WalkKeepsIdentity(o, theirs);
      DisjointIds(mine, theirs);
      DisjointIds(mine, w.theirs);
      if o.kind.GoodTillCancel? && !w.left.IsFilled() {
        InsertKeeps(o.side, mine, w.left);
        InsertIds(mine, w.left);
        InsertHead(mine, w.left);
        DisjointIds(Insert(mine, w.left), w.theirs);
      }
      InvFrom(o.side, Add(b, o).book);
    }
  }

  /** `t` is `s` without its order at `k`. */
  ghost predicate Lacks(s: seq<OrderState>, t: seq<OrderState>, k: nat) {
    |s| == |t| + 1 && forall i :: 0 <= i < |t| ==> t[i] == s[if i < k then i else i + 1]
  }

  lemma LackingSorted(side: Side, s: seq<OrderState>, t: seq<OrderState>, k: nat)
    requires Sorted(side, s) && Lacks(s, t, k)
    ensures Sorted(side, t)
    ensures t != [] ==> !Better(side, t[0].price, s[0].price)
  {
  }

  lemma LackingDistinct(s: seq<OrderState>, t: seq<OrderState>, k: nat)
    requires Distinct(s) && Lacks(s, t, k)
    ensures Distinct(t)
  {
  }

  lemma RemoveSideOk(side: Side, s: seq<OrderState>, id: OrderId)
    requires SideOk(side, s) && id in IdsOf(s)
    ensures SideOk(side, Remove(s, id))
    ensures Remove(s, id) != [] ==> s != [] && !Better(side, Remove(s, id)[0].price, s[0].price)
  {
    hide Sorted, Distinct, Remove;
    var k := RemoveAt(s, id);
    var t := Remove(s, id);
    assert Lacks(s, t, k);
    LackingSorted(side, s, t, k);
    LackingDistinct(s, t, k);
    assert forall i :: 0 <= i < |t| ==> MayRest(side, t[i]);
  }

  lemma {:induction false} RemoveIds(s: seq<OrderState>, id: OrderId)
    requires Distinct(s)
    ensures IdsOf(Remove(s, id)) == IdsOf(s) - {id}
  {
    if s != [] {
      if s[0].id == id {
        NotListed(s[1..], id);
      } else {
        RemoveIds(s[1..], id);
      }
    }
  }

  lemma {:induction false} RemoveAbsent(s: seq<OrderState>, x: OrderId)
    requires x !in IdsOf(s)
    ensures Remove(s, x) == s
  {
    if s != [] {
      RemoveAbsent(s[1..], x);
    }
  }

  lemma {:induction false} IdsCount(s: seq<OrderState>)
    requires Distinct(s)
    ensures |IdsOf(s)| == |s|
  {
    if s != [] {
      IdsCount(s[1..]);
      NotListed(s[1..], s[0].id);
    }
  }

  lemma RemoveKeeps(side: Side, mine: seq<OrderState>, theirs: seq<OrderState>, id: OrderId)
    requires InvOn(side, mine, theirs) && id in IdsOf(mine)
    ensures InvOn(side, Remove(mine, id), theirs)
  {
    RemoveSideOk(side, mine, id);
    RemoveIds(mine, id);
    DisjointIds(mine, theirs);
    DisjointIds(Remove(mine, id), theirs);
  }

  lemma CancelKeepsInv(b: Book, id: OrderId)
    requires Inv(b)
    ensures Inv(Cancel(b, id))
  {
    InvFrom(Buy, b);
    InvFrom(Sell, b);
    if id in IdsOf(b.bids) {
      RemoveKeeps(Buy, b.bids, b.asks, id);
    } else if id in IdsOf(b.asks) {
      RemoveKeeps(Sell, b.asks, b.bids, id);
      InvFrom(Sell, Cancel(b, id));
    }
  }

  // ---------- Runs ----------

  datatype Op = Submit(order: OrderState) | Withdraw(id: OrderId) {
    predicate Fresh() { Submit? ==> 0 < order.remaining == order.initial }

    function Names(): OrderId { if Submit? then order.id else id }
  }

  datatype Reply = Submitted(trades: seq<Trade>, accepted: bool, left: Quantity) | Withdrawn(done: bool)

  function Step(b: Book, op: Op): (Book, Reply) {
    match op
    case Submit(o) => var r := Add(b, o); (r.book, Submitted(r.trades, r.accepted, r.left))
    case Withdraw(id) => (Cancel(b, id), Withdrawn(id in b.Ids()))
  }

  function Run(b: Book, ops: seq<Op>): (Book, seq<Reply>)
    decreases |ops|
  {
    if ops == [] then (b, [])
    else
      var (b1, r) := Step(b, ops[0]);
      var (b2, rs) := Run(b1, ops[1..]);
      (b2, [r] + rs)
  }

  ghost predicate AllFresh(ops: seq<Op>) { forall i :: 0 <= i < |ops| ==> ops[i].Fresh() }

  lemma StepKeepsInv(b: Book, op: Op)
    requires Inv(b) && op.Fresh()
    ensures Inv(Step(b, op).0)
  {
    match op
    case Submit(o) => AddKeepsInv(b, o);
    case Withdraw(id) => CancelKeepsInv(b, id);
  }

  lemma {:induction false} RunKeepsInv(b: Book, ops: seq<Op>)
    requires Inv(b) && AllFresh(ops)
    ensures Inv(Run(b, ops).0)
    decreases |ops|
  {
    if ops != [] {
      StepKeepsInv(b, ops[0]);
      RunKeepsInv(Step(b, ops[0]).0, ops[1..]);
    }
  }

  lemma {:induction false} RunConcat(b: Book, s: seq<Op>, t: seq<Op>)
    ensures var (b1, rs) := Run(b, s);
            var (b2, rt) := Run(b1, t);
            Run(b, s + t) == (b2, rs + rt)
    decreases |s|
  {
    if s == [] {
      assert s + t == t && [] + Run(b, t).1 == Run(b, t).1;
    } else {
      assert (s + t)[1..] == s[1..] + t;
      var (b1, r) := Step(b, s[0]);
      RunConcat(b1, s[1..], t);
      var (b2, rs) := Run(b1, s[1..]);
      assert [r] + (rs + Run(b2, t).1) == ([r] + rs) + Run(b2, t).1;
    }
  }

  // ---------- Conservation ----------

  lemma {:induction false} InsertRests(s: seq<OrderState>, o: OrderState, at: Prices)
    ensures Resting(Insert(s, o), at) == Resting(s, at) + (if at.Has(o.price) then o.remaining else 0)
  {
    if s != [] && !Better(o.side, o.price, s[0].price) {
      InsertRests(s[1..], o, at);
    }
  }

  lemma {:induction false} RemoveRests(s: seq<OrderState>, id: OrderId)
    requires id in IdsOf(s)
    ensures Resting(Remove(s, id), Any) + RemainingOf(s, id) == Resting(s, Any)
  {
    if s[0].id != id {
      RemoveRests(s[1..], id);
    }
  }

  /** Depth at any set of prices changes on the other side by exactly what trades there, and on
      the order's own side by exactly what is left of it to rest. */
  lemma AddMovesDepth(b: Book, o: OrderState, at: Prices)
    requires Inv(b) && 0 < o.remaining && o.id !in b.Ids()
    ensures var r := Add(b, o); var other := o.side.Opposite();
            && Resting(r.book.On(other), at) + TradedAt(r.trades, other, at) == Resting(b.On(other), at)
            && Resting(r.book.On(o.side), at) == Resting(b.On(o.side), at)
                 + (if o.kind.GoodTillCancel? && at.Has(o.price) then r.left else 0)
            && TradedAt(r.trades, o.side, at) == if at.Has(o.price) then o.remaining - r.left else 0
  {
    AddIsGreedy(b, o);
    var theirs := b.On(o.side.Opposite());
    WalkTakes(o, theirs, at);
    WalkGives(o, theirs, at);
    WalkKeepsIdentity(o, theirs);
    InsertRests(b.On(o.side), Walk(o, theirs).left, at);
  }

  /** Closed form of the traded volume; it is the same on both sides. */
  lemma AddVolume(b: Book, o: OrderState)
    requires Inv(b) && 0 < o.remaining && o.id !in b.Ids()
    ensures var r := Add(b, o);
            var crossing := Resting(b.On(o.side.Opposite()), Reach(o.side, o.price));
            && o.remaining - r.left == (if o.remaining <= crossing then o.remaining else crossing)
            && TradedAt(r.trades, Buy, Any) == TradedAt(r.trades, Sell, Any) == o.remaining - r.left
  {
    AddIsGreedy(b, o);
    var theirs := b.On(o.side.Opposite());
    InvFrom(o.side, b);
    WalkVolume(o, theirs);
    WalkGives(o, theirs, Any);
    SidesTradeAlike(o, theirs);
  }

  lemma {:induction false} SidesTradeAlike(o: OrderState, theirs: seq<OrderState>)
    ensures var w := Walk(o, theirs); TradedAt(w.trades, Buy, Any) == TradedAt(w.trades, Sell, Any)
    decreases |theirs|
  {
    if !o.IsFilled() && theirs != [] && Crosses(o.side, o.price, theirs[0].price)
       && o.remaining >= theirs[0].remaining {
      SidesTradeAlike(o.Fill(theirs[0].remaining), theirs[1..]);
    }
  }

  /** What a run brings to one side and takes from it. */
  datatype Flow = Flow(accepted: nat, traded: nat, removed: nat)

  function StepFlow(b: Book, op: Op, side: Side): Flow {
    match op
    case Submit(o) =>
      var r := Add(b, o);
      var own := o.side == side && r.accepted;
      Flow(if own then o.remaining else 0, TradedAt(r.trades, side, Any),
           if own && o.kind.FillAndKill? then r.left else 0)
    case Withdraw(id) =>
      Flow(0, 0, RemainingOf(b.On(side), id))
  }

  function RunFlow(b: Book, ops: seq<Op>, side: Side): Flow
    decreases |ops|
  {
    if ops == [] then Flow(0, 0, 0)
    else
      var now, later := StepFlow(b, ops[0], side), RunFlow(Step(b, ops[0]).0, ops[1..], side);
      Flow(now.accepted + later.accepted, now.traded + later.traded, now.removed + later.removed)
  }

  lemma StepConserves(b: Book, op: Op, side: Side)
    requires Inv(b) && op.Fresh()
    ensures var f := StepFlow(b, op, side);
            Resting(b.On(side), Any) + f.accepted
            == Resting(Step(b, op).0.On(side), Any) + f.traded + f.removed
    ensures StepFlow(b, op, Buy).traded == StepFlow(b, op, Sell).traded
  {
    match op
    case Submit(o) =>
      if o.id !in b.Ids() {
        AddMovesDepth(b, o, Any);
        AddVolume(b, o);
      }
    case Withdraw(id) =>
      DisjointIds(b.bids, b.asks);
      if id in IdsOf(b.On(side)) {
        RemoveRests(b.On(side), id);
      } else {
        RemainingOfNone(b.On(side), id);
      }
  }

  /** Over every run from a reachable book: what was accepted on a side rests, was traded or was
      removed (cancelled or killed), and both sides traded the same total. */
  lemma {:induction false} RunConserves(b: Book, ops: seq<Op>, side: Side)
    requires Inv(b) && AllFresh(ops)
    ensures var f := RunFlow(b, ops, side);
            Resting(b.On(side), Any) + f.accepted
            == Resting(Run(b, ops).0.On(side), Any) + f.traded + f.removed
    ensures RunFlow(b, ops, Buy).traded == RunFlow(b, ops, Sell).traded
    decreases |ops|
  {
    if ops != [] {
      StepConserves(b, ops[0], side);
      StepKeepsInv(b, ops[0]);
      RunConserves(Step(b, ops[0]).0, ops[1..], side);
    }
  }

  // ---------- The account of a single order ----------

  /** What is left of order `id` in the book; 0 when it does not rest. */
  function Left(b: Book, id: OrderId): nat { RemainingOf(b.bids, id) + RemainingOf(b.asks, id) }

  lemma {:induction false} InsertLeaves(s: seq<OrderState>, o: OrderState, id: OrderId)
    requires id != o.id
    ensures RemainingOf(Insert(s, o), id) == RemainingOf(s, id)
  {
    if s != [] && !Better(o.side, o.price, s[0].price) {
      InsertLeaves(s[1..], o, id);
    }
  }

  lemma {:induction false} RemoveLeaves(s: seq<OrderState>, gone: OrderId, id: OrderId)
    requires Distinct(s)
    ensures RemainingOf(Remove(s, gone), id) == if id == gone then 0 else RemainingOf(s, id)
  {
    if s != [] {
      if s[0].id == gone {
        NotListed(s[1..], gone);
        RemainingOfNone(s[1..], gone);
      } else {
        RemoveLeaves(s[1..], gone, id);
      }
    }
  }

  /** Adding `o` moves any other order by exactly the trades that name it, and splits `o` into
      what is traded and what is left. */
  lemma AddAccount(b: Book, o: OrderState, id: OrderId)
    requires Inv(b) && 0 < o.remaining
    ensures var r := Add(b, o);
            && (id != o.id ==> Left(r.book, id) + Traded(r.trades, id) == Left(b, id))
            && (o.id !in b.Ids() ==>
                  && r.left + Traded(r.trades, o.id) == o.remaining
                  && Left(r.book, o.id) == if o.kind.GoodTillCancel? then r.left else 0)
  {
    AddIsGreedy(b, o);
    if o.id !in b.Ids() {
      var mine, theirs := b.On(o.side), b.On(o.side.Opposite());
      var w := Walk(o, theirs);
      InvFrom(o.side, b);
      WalkKeepsIdentity(o, theirs);
      WalkKeeps(o, theirs);
      WalkOwnAccount(o, theirs);
      RemainingOfNone(w.theirs, o.id);
      RemainingOfNone(mine, o.id);
      InsertThenFind(mine, w.left);
      if id != o.id {
        WalkAccount(o, theirs, id);
        InsertLeaves(mine, w.left, id);
      }
    }
  }

  function TradedInRun(rs: seq<Reply>, id: OrderId): nat {
    if rs == [] then 0
    else (if rs[0].Submitted? then Traded(rs[0].trades, id) else 0) + TradedInRun(rs[1..], id)
  }

  /** What cancels naming `id` take out of the book during the run. */
  function CancelledInRun(b: Book, ops: seq<Op>, id: OrderId): nat
    decreases |ops|
  {
    if ops == [] then 0
    else (if ops[0] == Withdraw(id) then Left(b, id) else 0) + CancelledInRun(Step(b, ops[0]).0, ops[1..], id)
  }

  /** As long as its id is not submitted again, an order's quantity is what is left of it, what
      trades name it for, and what cancelling it removed. */
  lemma {:induction false} RunAccount(b: Book, ops: seq<Op>, id: OrderId)
    requires Inv(b) && AllFresh(ops)
    requires forall i :: 0 <= i < |ops| && ops[i].Submit? ==> ops[i].order.id != id
    ensures var (b', rs) := Run(b, ops);
            Left(b', id) + TradedInRun(rs, id) + CancelledInRun(b, ops, id) == Left(b, id)
    decreases |ops|
  {
    if ops != [] {
      match ops[0] {
        case Submit(o) => AddAccount(b, o, id);
        case Withdraw(gone) => CancelAccount(b, gone, id);
      }
      StepKeepsInv(b, ops[0]);
      RunAccount(Step(b, ops[0]).0, ops[1..], id);
    }
  }

  lemma CancelAccount(b: Book, gone: OrderId, id: OrderId)
    requires Inv(b)
    ensures Left(Cancel(b, gone), id) == if id == gone then 0 else Left(b, id)
  {
    DisjointIds(b.bids, b.asks);
    RemoveLeaves(b.bids, gone, id);
    RemoveLeaves(b.asks, gone, id);
    if gone !in IdsOf(b.bids) {
      RemainingOfNone(b.bids, gone);
    }
    if gone !in IdsOf(b.asks) {
      RemainingOfNone(b.asks, gone);
    }
  }

  /** From its submission on: initial quantity == left + traded + cancelled + killed, for every
      accepted order and every later run that does not reuse its id. */
  lemma OrderAccount(b: Book, o: OrderState, later: seq<Op>)
    requires Inv(b) && Submit(o).Fresh() && o.id !in b.Ids() && AllFresh(later)
    requires forall i :: 0 <= i < |later| && later[i].Submit? ==> later[i].order.id != o.id
    ensures var (b1, r) := Step(b, Submit(o));
            var (b2, rs) := Run(b1, later);
            var killed := if o.kind.FillAndKill? then r.left else 0;
            o.initial == Left(b2, o.id) + Traded(r.trades, o.id) + TradedInRun(rs, o.id)
                         + CancelledInRun(b1, later, o.id) + killed
  {
    AddAccount(b, o, o.id);
    AddKeepsInv(b, o);
    RunAccount(Add(b, o).book, later, o.id);
  }
}
