/** Properties that compare two runs: Fill-And-Kill against Good-Till-Cancel, one order against
    the same quantity in two, and a run with an order that never trades against the run
    without it. */
module TwoRuns {
  import opened Types
  import opened Matching
  import opened Greedy
  import opened Walking
  import opened Reachable

  // ---------- Fill-And-Kill is Good-Till-Cancel, then cancel ----------

  lemma {:induction false} WalkIgnoresKind(o: OrderState, g: OrderState, theirs: seq<OrderState>)
    requires g == o.(kind := g.kind)
    ensures var w := Walk(o, theirs);
            Walk(g, theirs) == w.(left := w.left.(kind := g.kind))
    decreases |theirs|
  {
    if !o.IsFilled() && theirs != [] && Crosses(o.side, o.price, theirs[0].price)
       && o.remaining >= theirs[0].remaining {
      var q := theirs[0].remaining;
      WalkIgnoresKind(o.Fill(q), g.Fill(q), theirs[1..]);
    }
  }

  /** The early exit of CanMatch agrees with insert, match and remove: a Fill-And-Kill order
      leaves the trades and the book of the same order sent Good-Till-Cancel and cancelled. */
  lemma FillAndKillIsAddThenCancel(b: Book, o: OrderState)
    requires Inv(b) && 0 < o.remaining && o.id !in b.Ids() && o.kind.FillAndKill?
    ensures var gtc := Add(b, o.(kind := GoodTillCancel));
            var fak := Add(b, o);
            && fak.trades == gtc.trades && fak.left == gtc.left
            && fak.book == Cancel(gtc.book, o.id)
  {
    var g := o.(kind := GoodTillCancel);
    AddIsGreedy(b, o);
    AddIsGreedy(b, g);
    var mine, theirs := b.On(o.side), b.On(o.side.Opposite());
    InvFrom(o.side, b);
    WalkIgnoresKind(o, g, theirs);
    WalkKeepsIdentity(g, theirs);
    WalkKeeps(g, theirs);
    InsertIds(mine, Walk(g, theirs).left);
    InsertThenFind(mine, Walk(g, theirs).left);
  }

  // ---------- Splitting an order ----------

  /** `o` with `q` to fill, under another id. */
  function Part(o: OrderState, id: OrderId, q: Quantity): OrderState {
    o.(id := id, initial := q, remaining := q)
  }

  lemma {:induction false} WalkSplits(o: OrderState, first: OrderState, second: OrderState, theirs: seq<OrderState>)
    requires first.side == second.side == o.side && first.price == second.price == o.price
    requires first.remaining + second.remaining == o.remaining && 0 < second.remaining
    requires SideOk(o.side.Opposite(), theirs)
    ensures var w, w1 := Walk(o, theirs), Walk(first, theirs);
            var w2 := Walk(second, w1.theirs);
            && w.theirs == w2.theirs
            && w.left.remaining == w1.left.remaining + w2.left.remaining
            && (0 < w1.left.remaining ==> w2.left.remaining == second.remaining)
    decreases |theirs|
  {
    if theirs != [] && Crosses(o.side, o.price, theirs[0].price) && !first.IsFilled() {
      var h := theirs[0].remaining;
      if h <= first.remaining {
        WalkSplits(o.Fill(h), first.Fill(h), second, theirs[1..]);
      } else {
        var w1 := Walk(first, theirs);
        assert w1.theirs == [theirs[0].Fill(first.remaining)] + theirs[1..];
        assert w1.theirs[1..] == theirs[1..];
        if h <= o.remaining {
          assert Walk(second, w1.theirs).theirs == Walk(second.Fill(h - first.remaining), theirs[1..]).theirs;
          WalkAlike(o.Fill(h), second.Fill(h - first.remaining), theirs[1..]);
        }
      }
    } else if first.IsFilled() {
      WalkAlike(o, second, theirs);
    }
  }

  /** A walk depends on side, price and remaining quantity only. */
  lemma {:induction false} WalkAlike(o: OrderState, p: OrderState, theirs: seq<OrderState>)
    requires p.side == o.side && p.price == o.price && p.remaining == o.remaining
    ensures Walk(o, theirs).theirs == Walk(p, theirs).theirs
    ensures Walk(o, theirs).left.remaining == Walk(p, theirs).left.remaining
    decreases |theirs|
  {
    if !o.IsFilled() && theirs != [] && Crosses(o.side, o.price, theirs[0].price)
       && o.remaining >= theirs[0].remaining {
      WalkAlike(o.Fill(theirs[0].remaining), p.Fill(theirs[0].remaining), theirs[1..]);
    }
  }

  lemma {:induction false} FilledBy(trades: seq<Trade>, more: seq<Trade>, id: OrderId)
    ensures Traded(trades + more, id) == Traded(trades, id) + Traded(more, id)
  {
    if trades == [] {
      assert trades + more == more;
    } else {
      assert (trades + more)[1..] == trades[1..] + more;
      FilledBy(trades[1..], more, id);
    }
  }

  lemma AddIds(b: Book, o: OrderState, id: OrderId)
    requires Inv(b) && 0 < o.remaining && id != o.id && id !in b.Ids()
    ensures id !in Add(b, o).book.Ids()
  {
    AddIsGreedy(b, o);
    if o.id !in b.Ids() {
      var theirs := b.On(o.side.Opposite());
      InvFrom(o.side, b);
      WalkKeeps(o, theirs);
      WalkKeepsIdentity(o, theirs);
      InsertIds(b.On(o.side), Walk(o, theirs).left);
    }
  }

  /** An order with another id keeps its quantity on the incoming order's own side. */
  lemma OwnSideLeft(b: Book, o: OrderState, id: OrderId)
    requires Inv(b) && 0 < o.remaining && id != o.id
    ensures RemainingOf(Add(b, o).book.On(o.side), id) == RemainingOf(b.On(o.side), id)
  {
    AddIsGreedy(b, o);
    var theirs := b.On(o.side.Opposite());
    WalkKeepsIdentity(o, theirs);
    InsertLeaves(b.On(o.side), Walk(o, theirs).left, id);
  }

  lemma SameFills(b: Book, o: OrderState, first: OrderState, second: OrderState, id: OrderId)
    requires Inv(b) && 0 < o.remaining && 0 < first.remaining && 0 < second.remaining
    requires o.side == first.side == second.side && id !in {o.id, first.id, second.id}
    requires Inv(Add(b, first).book)
    requires Add(b, o).book.On(o.side.Opposite()) == Add(Add(b, first).book, second).book.On(o.side.Opposite())
    ensures Traded(Add(b, first).trades + Add(Add(b, first).book, second).trades, id) == Traded(Add(b, o).trades, id)
  {
    var one := Add(b, first);
    FilledBy(one.trades, Add(one.book, second).trades, id);
    AddAccount(b, o, id);
    AddAccount(b, first, id);
    AddAccount(one.book, second, id);
    OwnSideLeft(b, o, id);
    OwnSideLeft(b, first, id);
    OwnSideLeft(one.book, second, id);
  }

  /** Splitting: one Good-Till-Cancel order of q1 + q2 and two of q1, then q2, leave the same
      opposite side, fill every other order by the same total, and leave the same quantity at
      every set of prices on their own side, under whatever fresh ids. */
  lemma SplittingIsInvisible(b: Book, o: OrderState, id1: OrderId, id2: OrderId, q1: Quantity, q2: Quantity)
    requires Inv(b) && Submit(o).Fresh() && o.kind.GoodTillCancel? && o.id !in b.Ids()
    requires id1 !in b.Ids() && id2 !in b.Ids() && id1 != id2
    requires 0 < q1 && 0 < q2 && q1 + q2 == o.remaining
    ensures var whole := Add(b, o);
            var one := Add(b, Part(o, id1, q1));
            var two := Add(one.book, Part(o, id2, q2));
            && two.book.On(o.side.Opposite()) == whole.book.On(o.side.Opposite())
            && (forall id :: id !in {o.id, id1, id2} ==>
                  Traded(one.trades + two.trades, id) == Traded(whole.trades, id))
            && (forall at :: Resting(two.book.On(o.side), at) == Resting(whole.book.On(o.side), at))
  {
    var first, second := Part(o, id1, q1), Part(o, id2, q2);
    var one := Add(b, first);
    var whole, two := Add(b, o), Add(one.book, second);
    var mine, theirs := b.On(o.side), b.On(o.side.Opposite());
    AddIsGreedy(b, o);
    AddIsGreedy(b, first);
    AddKeepsInv(b, first);
    AddIsGreedy(one.book, second);
    InvFrom(o.side, b);
    WalkSplits(o, first, second, theirs);
    AddIds(b, first, id2);
    assert two.book.On(o.side.Opposite()) == whole.book.On(o.side.Opposite());
    hide Add, GreedyAdd, Walk, Inv;
    forall id | id !in {o.id, id1, id2} ensures Traded(one.trades + two.trades, id) == Traded(whole.trades, id) {
      SameFills(b, o, first, second, id);
    }
    forall at ensures Resting(two.book.On(o.side), at) == Resting(whole.book.On(o.side), at) {
      AddMovesDepth(b, o, at);
      AddMovesDepth(b, first, at);
      AddMovesDepth(one.book, second, at);
    }
  }

  // ---------- An order that never trades ----------

  /** A walk that does not trade with `x` goes the same way when `x` is not there. */
  lemma {:induction false} WalkWithout(o: OrderState, theirs: seq<OrderState>, x: OrderId)
    requires SideOk(o.side.Opposite(), theirs) && Traded(Walk(o, theirs).trades, x) == 0
    ensures var w := Walk(o, theirs);
            Walk(o, Remove(theirs, x)) == w.(theirs := Remove(w.theirs, x))
    decreases |theirs|
  {
    if theirs != [] && !o.IsFilled() {
      if !Crosses(o.side, o.price, theirs[0].price) {
        if theirs[0].id == x && |theirs| > 1 {
          assert !Better(o.side.Opposite(), theirs[1].price, theirs[0].price);
        }
      } else if o.remaining >= theirs[0].remaining {
        WalkWithout(o.Fill(theirs[0].remaining), theirs[1..], x);
      }
    }
  }

  lemma {:induction false} InsertWithout(side: Side, s: seq<OrderState>, o: OrderState, x: OrderId)
    requires Sorted(side, s) && o.side == side && o.id != x
    ensures Insert(Remove(s, x), o) == Remove(Insert(s, o), x)
  {
    if s != [] {
      if s[0].id == x {
        if |s| > 1 {
          assert !Better(side, s[1].price, s[0].price);
        }
      } else if !Better(o.side, o.price, s[0].price) {
        InsertWithout(side, s[1..], o, x);
      }
    }
  }

  lemma {:induction false} RemoveCommutes(s: seq<OrderState>, x: OrderId, y: OrderId)
    requires x != y
    ensures Remove(Remove(s, x), y) == Remove(Remove(s, y), x)
  {
    if s != [] && s[0].id != x && s[0].id != y {
      RemoveCommutes(s[1..], x, y);
    }
  }

  /** Cancelling, seen from both sides at once. */
  lemma CancelBoth(b: Book, x: OrderId)
    requires Inv(b)
    ensures Cancel(b, x) == Book(Remove(b.bids, x), Remove(b.asks, x))
    ensures Cancel(b, x).Ids() == b.Ids() - {x}
  {
    DisjointIds(b.bids, b.asks);
    RemoveIds(b.bids, x);
    RemoveIds(b.asks, x);
    if x !in IdsOf(b.bids) {
      RemoveAbsent(b.bids, x);
    }
    if x !in IdsOf(b.asks) {
      RemoveAbsent(b.asks, x);
    }
  }

  lemma AddWithout(b: Book, o: OrderState, x: OrderId)
    requires Inv(b) && Submit(o).Fresh() && o.id != x
    requires Traded(Add(b, o).trades, x) == 0
    ensures var r := Add(b, o);
            Add(Cancel(b, x), o) == r.(book := Cancel(r.book, x))
  {
    CancelKeepsInv(b, x);
    AddKeepsInv(b, o);
    CancelBoth(b, x);
    CancelBoth(Add(b, o).book, x);
    AddIsGreedy(b, o);
    AddIsGreedy(Cancel(b, x), o);
    if o.id !in b.Ids() {
      var mine, theirs := b.On(o.side), b.On(o.side.Opposite());
      InvFrom(o.side, b);
      WalkWithout(o, theirs, x);
      WalkKeepsIdentity(o, theirs);
      InsertWithout(o.side, mine, Walk(o, theirs).left, x);
      hide Add, Cancel, Walk, Insert, Remove, Inv, InvOn;
    }
  }

  ghost predicate NeverTrades(rs: seq<Reply>, x: OrderId) {
    forall i :: 0 <= i < |rs| && rs[i].Submitted? ==> Traded(rs[i].trades, x) == 0
  }

  ghost predicate NeverNamed(ops: seq<Op>, x: OrderId) { forall i :: 0 <= i < |ops| ==> ops[i].Names() != x }

  lemma StepWithout(b: Book, op: Op, x: OrderId)
    requires Inv(b) && op.Fresh() && op.Names() != x
    requires Step(b, op).1.Submitted? ==> Traded(Step(b, op).1.trades, x) == 0
    ensures Step(Cancel(b, x), op) == (Cancel(Step(b, op).0, x), Step(b, op).1)
  {
    match op
    case Submit(o) =>
      AddWithout(b, o, x);
    case Withdraw(id) =>
      CancelKeepsInv(b, x);
      CancelKeepsInv(b, id);
      CancelBoth(b, x);
      CancelBoth(b, id);
      CancelBoth(Cancel(b, x), id);
      CancelBoth(Cancel(b, id), x);
      RemoveCommutes(b.bids, x, id);
      RemoveCommutes(b.asks, x, id);
  }

  /** Operations that neither name nor trade with `x` do not see it. */
  lemma {:induction false} RunWithout(b: Book, ops: seq<Op>, x: OrderId)
    requires Inv(b) && AllFresh(ops) && NeverNamed(ops, x) && NeverTrades(Run(b, ops).1, x)
    ensures Run(Cancel(b, x), ops) == (Cancel(Run(b, ops).0, x), Run(b, ops).1)
    decreases |ops|
  {
    if ops != [] {
      var rs := Run(b, ops).1;
      var (b1, r) := Step(b, ops[0]);
      assert r == rs[0] && rs[1..] == Run(b1, ops[1..]).1;
      assert forall i :: 0 <= i < |rs[1..]| ==> rs[1..][i] == rs[i + 1];
      StepWithout(b, ops[0], x);
      StepKeepsInv(b, ops[0]);
      RunWithout(b1, ops[1..], x);
    }
  }

  /** Adding an order that rests untouched and cancelling it at once changes nothing. */
  lemma AddThenCancel(b: Book, o: OrderState)
    requires Inv(b) && Submit(o).Fresh() && o.id !in b.Ids() && Add(b, o).trades == []
    ensures Cancel(Add(b, o).book, o.id) == b
    ensures Add(b, o).accepted && Add(b, o).left == o.remaining
    ensures o.kind.GoodTillCancel? ==> o.id in Add(b, o).book.Ids()
  {
    AddIsGreedy(b, o);
    AddKeepsInv(b, o);
    CancelBoth(Add(b, o).book, o.id);
    InsertThenFind(b.On(o.side), o);
    InsertIds(b.On(o.side), o);
    RemoveAbsent(b.bids, o.id);
    RemoveAbsent(b.asks, o.id);
  }

  /** `o` comes, `mid` passes without naming it or trading with it, `o` goes: all as if it had
      never been there. */
  lemma CameAndWent(b: Book, o: OrderState, mid: seq<Op>)
    requires Inv(b) && Submit(o).Fresh() && AllFresh(mid) && NeverNamed(mid, o.id)
    requires o.kind.GoodTillCancel? && o.id !in b.Ids() && Add(b, o).trades == []
    requires NeverTrades(Run(Step(b, Submit(o)).0, mid).1, o.id)
    ensures var (b1, rx) := Step(b, Submit(o));
            var (b2, r1) := Run(b1, mid);
            && rx == Submitted([], true, o.remaining)
            && Step(b2, Withdraw(o.id)) == (Run(b, mid).0, Withdrawn(true))
            && r1 == Run(b, mid).1
  {
    var b1 := Add(b, o).book;
    AddKeepsInv(b, o);
    AddThenCancel(b, o);
    RunWithout(b1, mid, o.id);
    StillThere(b1, mid, o.id);
  }

  /** The run with `o` submitted after `pre` and cancelled after `mid`. */
  function Visited(pre: seq<Op>, o: OrderState, mid: seq<Op>, post: seq<Op>): seq<Op> {
    pre + [Submit(o)] + mid + [Withdraw(o.id)] + post
  }

  /** `o` is submitted after `pre`, rests without a trade, and neither trades nor is named
      during `mid`. */
  ghost predicate PassesBy(pre: seq<Op>, o: OrderState, mid: seq<Op>) {
    var b := Run(EMPTY, pre).0;
    && AllFresh(pre) && Submit(o).Fresh() && AllFresh(mid) && NeverNamed(mid, o.id)
    && o.kind.GoodTillCancel? && o.id !in b.Ids() && Add(b, o).trades == []
    && NeverTrades(Run(Step(b, Submit(o)).0, mid).1, o.id)
  }

  /** The replies `rs` of a run with two more at the places `i` and `j`. */
  ghost predicate ExtraAt<T>(rs: seq<T>, i: nat, x: T, j: nat, y: T, rest: seq<T>) {
    && i < j < |rs| && rs[i] == x && rs[j] == y
    && rest == rs[..i] + rs[i + 1..j] + rs[j + 1..]
  }

  function Joined<T>(r: seq<T>, x: T, s: seq<T>, y: T, t: seq<T>): seq<T> { r + [x] + s + [y] + t }

  function Rest<T>(r: seq<T>, s: seq<T>, t: seq<T>): seq<T> { r + s + t }

  lemma Spliced<T>(r: seq<T>, x: T, s: seq<T>, y: T, t: seq<T>)
    ensures ExtraAt(Joined(r, x, s, y, t), |r|, x, |r| + |s| + 1, y, Rest(r, s, t))
  {
    var all := Joined(r, x, s, y, t);
    assert all[..|r|] == r;
    assert all[|r| + 1..|r| + |s| + 1] == s;
    assert all[|r| + |s| + 2..] == t;
  }

  lemma BothRuns(pre: seq<Op>, o: OrderState, mid: seq<Op>, post: seq<Op>)
      returns (r0: seq<Reply>, r1: seq<Reply>, r2: seq<Reply>)
    requires PassesBy(pre, o, mid)
    ensures |r0| == |pre| && |r1| == |mid|
    ensures Run(EMPTY, Visited(pre, o, mid, post)).0 == Run(EMPTY, pre + mid + post).0
    ensures Run(EMPTY, Visited(pre, o, mid, post)).1
            == Joined(r0, Submitted([], true, o.remaining), r1, Withdrawn(true), r2)
    ensures Run(EMPTY, pre + mid + post).1 == Rest(r0, r1, r2)
  {
    var b := Run(EMPTY, pre).0;
    RunKeepsInv(EMPTY, pre);
    CameAndWent(b, o, mid);
    var b2 := Run(b, mid).0;
    r0, r1, r2 := Run(EMPTY, pre).1, Run(b, mid).1, Run(b2, post).1;
    RunLength(EMPTY, pre);
    RunLength(b, mid);
    hide Run, Step, Add, NeverTrades, NeverNamed, Inv, AllFresh;
    RunFive(pre, o, mid, post);
    RunConcat(EMPTY, pre + mid, post);
    RunConcat(EMPTY, pre, mid);
  }

  /** Non-interference over whole runs: an order that rests, never trades, is not named by any
      other operation and is finally cancelled leaves the final book and every other reply as
      in the run without it. */
  lemma NonInterference(pre: seq<Op>, o: OrderState, mid: seq<Op>, post: seq<Op>)
    requires PassesBy(pre, o, mid)
    ensures var with, without := Run(EMPTY, Visited(pre, o, mid, post)), Run(EMPTY, pre + mid + post);
            && with.0 == without.0
            && ExtraAt(with.1, |pre|, Submitted([], true, o.remaining), |pre| + |mid| + 1, Withdrawn(true), without.1)
  {
    hide *;
    var r0, r1, r2 := BothRuns(pre, o, mid, post);
    Spliced(r0, Submitted([], true, o.remaining), r1, Withdrawn(true), r2);
  }

  lemma RunOne(b: Book, op: Op)
    ensures Run(b, [op]) == (Step(b, op).0, [Step(b, op).1])
  {
    assert [op][1..] == [] && [Step(b, op).1] + [] == [Step(b, op).1];
  }

  lemma {:induction false} RunLength(b: Book, ops: seq<Op>)
    ensures |Run(b, ops).1| == |ops|
    decreases |ops|
  {
    if ops != [] {
      RunLength(Step(b, ops[0]).0, ops[1..]);
    }
  }

  /** An order that neither trades nor is named stays. */
  lemma {:induction false} StillThere(b: Book, ops: seq<Op>, x: OrderId)
    requires Inv(b) && AllFresh(ops) && NeverNamed(ops, x) && NeverTrades(Run(b, ops).1, x)
    requires x in b.Ids()
    ensures x in Run(b, ops).0.Ids()
    decreases |ops|
  {
    if ops != [] {
      var rs := Run(b, ops).1;
      var (b1, r) := Step(b, ops[0]);
      assert r == rs[0] && rs[1..] == Run(b1, ops[1..]).1;
      assert forall i :: 0 <= i < |rs[1..]| ==> rs[1..][i] == rs[i + 1];
      StepKeepsInv(b, ops[0]);
      match ops[0] {
        case Submit(o) =>
          AddAccount(b, o, x);
          LeftIsPositive(b, x);
          LeftIsPositive(b1, x);
        case Withdraw(id) =>
          CancelBoth(b, id);
      }
      StillThere(b1, ops[1..], x);
    }
  }

  lemma LeftIsPositive(b: Book, x: OrderId)
    requires Inv(b)
    ensures x in b.Ids() <==> 0 < Left(b, x)
  {
    SideLeftIsPositive(Buy, b.bids, x);
    SideLeftIsPositive(Sell, b.asks, x);
  }

  lemma {:induction false} SideLeftIsPositive(side: Side, s: seq<OrderState>, x: OrderId)
    requires SideOk(side, s)
    ensures x in IdsOf(s) <==> 0 < RemainingOf(s, x)
  {
    if s != [] {
      SideLeftIsPositive(side, s[1..], x);
    }
  }

  lemma RunFive(pre: seq<Op>, o: OrderState, mid: seq<Op>, post: seq<Op>)
    ensures var (b, r0) := Run(EMPTY, pre);
            var (b1, rx) := Step(b, Submit(o));
            var (b2, r1) := Run(b1, mid);
            var (b3, ry) := Step(b2, Withdraw(o.id));
            var (b4, r2) := Run(b3, post);
            Run(EMPTY, Visited(pre, o, mid, post)) == (b4, r0 + [rx] + r1 + [ry] + r2)
  {
    RunConcat(EMPTY, pre + [Submit(o)] + mid + [Withdraw(o.id)], post);
    RunConcat(EMPTY, pre + [Submit(o)] + mid, [Withdraw(o.id)]);
    RunConcat(EMPTY, pre + [Submit(o)], mid);
    RunConcat(EMPTY, pre, [Submit(o)]);
    var b := Run(EMPTY, pre).0;
    RunOne(b, Submit(o));
    RunOne(Run(Step(b, Submit(o)).0, mid).0, Withdraw(o.id));
  }
}
