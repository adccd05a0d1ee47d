/** The broker mirrors the book: its tracked orders are exactly the resting ones, quantity by
    quantity, and the signed fills of all confirmations cancel out. Calls keep it so under
    whatever client ids, unless a trade names an order under the empty one. */
module MirrorLaws {
  import opened Types
  import opened Matching
  import opened Greedy
  import opened Walking
  import opened Reachable
  import opened Priority
  import opened TwoRuns
  import opened Server
  import opened Confirmations
  import opened BrokerModel
  import opened FillLaws

  /** The broker's record of a resting order. */
  ghost predicate RecordOf(d: Details, o: OrderState) {
    && d.brokerId == o.id && d.side == o.side && d.price == o.price && d.kind == o.kind
    && d.quantity == o.initial && d.quantity - d.filled == o.remaining
    && d.status == Working
  }

  ghost predicate Mirror(b: Book, br: Broker) {
    && br.details.Keys == b.Ids()
    && forall side: Side, i: nat :: i < |b.On(side)| ==>
         b.On(side)[i].id in br.details && RecordOf(br.details[b.On(side)[i].id], b.On(side)[i])
  }

  /** A broker in step with its book: the tracked orders are the resting ones, quantity by
      quantity, and the signed fills of all confirmations cancel out. */
  ghost predicate InStep(s: System) { Mirror(s.book, s.broker) && SignedTotal(s.broker.sent) == 0 }

  /** The invariant between calls: in step, the book's own invariant, and each client id in use
      leads to a tracked order. */
  ghost predicate SystemOk(s: System) { Inv(s.book) && InStep(s) && Tracked(s.broker) }

  // ---------- The fills of one AddOrder ----------

  lemma {:induction false} FilledIsTraded(trades: seq<Trade>, id: OrderId)
    ensures FilledIn(Fills(trades), id) == Traded(trades, id)
  {
    if trades != [] {
      var fills := Fills(trades);
      assert fills[1..][1..] == Fills(trades[1..]);
      assert FilledIn(fills, id) == TradedIn(trades[0], id) + FilledIn(fills[1..][1..], id);
      FilledIsTraded(trades[1..], id);
    }
  }

  lemma {:induction false} FillsCancelOut(trades: seq<Trade>)
    requires forall i :: 0 <= i < |trades| ==> trades[i].bid.tradedQuantity == trades[i].ask.tradedQuantity
    ensures SignedFills(Fills(trades)) == 0
  {
    if trades != [] {
      var fills := Fills(trades);
      assert fills[1..][1..] == Fills(trades[1..]);
      FillsCancelOut(trades[1..]);
    }
  }

  lemma LeftAt(b: Book, side: Side, i: nat)
    requires Inv(b) && i < |b.On(side)|
    ensures Left(b, b.On(side)[i].id) == b.On(side)[i].remaining
  {
    var s, t := b.On(side), b.On(side.Opposite());
    InvFrom(side, b);
    forall j | 0 <= j < |s| && s[j].id == s[i].id ensures j == i {
    }
    RemainingAt(s, i);
    NotListed(t, s[i].id);
    RemainingOfNone(t, s[i].id);
  }

  lemma ListedAt(b: Book, id: OrderId) returns (side: Side, i: nat)
    requires id in b.Ids()
    ensures i < |b.On(side)| && b.On(side)[i].id == id
  {
    InIdsOf(b.bids, id);
    InIdsOf(b.asks, id);
    side := if id in IdsOf(b.bids) then Buy else Sell;
    i :| i < |b.On(side)| && b.On(side)[i].id == id;
  }

  /** A mirrored record has to fill what the book has left of its order. */
  lemma RecordLeft(b: Book, br: Broker, id: OrderId)
    requires Inv(b) && Mirror(b, br) && id in br.details
    ensures br.details[id].quantity - br.details[id].filled == Left(b, id)
    ensures br.details[id].status == Working && br.details[id].brokerId == id
  {
    var side, i := ListedAt(b, id);
    LeftAt(b, side, i);
  }

  /** Each trade of an AddOrder names the new order on its side, and on the other side an order
      that rests there. */
  lemma TradeNames(b: Book, o: OrderState, i: nat)
    requires Inv(b) && 0 < o.remaining && o.id !in b.Ids() && i < |Add(b, o).trades|
    ensures var t := Add(b, o).trades[i]; var theirs := b.On(o.side.Opposite());
            && t.bid.tradedQuantity == t.ask.tradedQuantity > 0
            && t.On(o.side).orderId == o.id && t.On(o.side).price == o.price
            && i < |theirs| && t.On(o.side.Opposite()).orderId == theirs[i].id
            && t.On(o.side.Opposite()).price == theirs[i].price
            && theirs[i].id in b.Ids()
  {
    var k := AddFollowsPriority(b, o);
    InvFrom(o.side, b);
    IdsAt(b.On(o.side.Opposite()), i);
  }

  /** The new order registered with the broker. */
  ghost predicate Registered(b: Book, br: Broker, d: Details, br1: Broker) {
    && Mirror(b, br) && d.brokerId !in br.details
    && br1.details == br.details[d.brokerId := d.(status := Acknowledged)]
    && d.filled == 0 < d.quantity
  }

  function OrderOf(d: Details): OrderState {
    OrderState(d.brokerId, d.side, d.price, d.kind, d.quantity, d.quantity)
  }

  /** Known before the call: no trade of the new order will name an order under the empty client
      id. Such an order may neither be one that the walk reaches nor, if anything crosses, the
      new order itself. */
  predicate TradesNamed(b: Book, br: Broker, d: Details) {
    (d.clientId != "" || !CanMatch(b, d.side, d.price)) && ReachesNamed(b, br, d)
  }

  /** All orders that the new one reaches are named. */
  predicate ReachesNamed(b: Book, br: Broker, d: Details) {
    var theirs := b.On(d.side.Opposite());
    forall i :: 0 <= i < |theirs| && Reached(theirs, i, d) && theirs[i].id in br.details ==>
      br.details[theirs[i].id].clientId != ""
  }

  /** The new order trades with the `i`-th order of the other side. */
  predicate Reached(theirs: seq<OrderState>, i: nat, d: Details)
    requires i < |theirs|
  {
    Crosses(d.side, d.price, theirs[i].price) && Before(theirs, theirs[i].id) < d.quantity
  }

  /** Which order the `j`-th fill is of: the new one, or one that it reaches. */
  lemma FillNames(b: Book, d: Details, j: nat) returns (i: nat)
    requires Inv(b) && OrderOf(d).id !in b.Ids() && 0 < d.quantity && j < |Fills(Add(b, OrderOf(d)).trades)|
    ensures var f := Fills(Add(b, OrderOf(d)).trades)[j]; var theirs := b.On(d.side.Opposite());
            && f.tradedQuantity > 0 && i < |theirs| && Reached(theirs, i, d)
            && CanMatch(b, d.side, d.price)
            && if f.side == d.side then f.orderIdFilled == d.brokerId else f.orderIdFilled == theirs[i].id
  {
    var o := OrderOf(d);
    var trades := Add(b, o).trades;
    i := j / 2;
    FillsAt(trades, j);
    TradeNames(b, o, i);
    TradeReaches(b, o, i);
    hide Add, Inv, Fills, Before, CanMatch;
  }

  /** No fill of an AddOrder is of an order under the empty client id. */
  lemma AddNames(b: Book, br: Broker, d: Details, br1: Broker)
    requires Inv(b) && Registered(b, br, d, br1) && TradesNamed(b, br, d)
    ensures AllNamed(br1, Fills(Add(b, OrderOf(d)).trades))
  {
    var fills := Fills(Add(b, OrderOf(d)).trades);
    forall j: nat | j < |fills| && fills[j].orderIdFilled in br1.details
      ensures br1.details[fills[j].orderIdFilled].clientId != ""
    {
      var i := FillNames(b, d, j);
    }
  }

  /** The fills of an AddOrder name tracked orders, overfill none and cancel out in sign. */
  lemma AddSizes(b: Book, br: Broker, d: Details, br1: Broker)
    requires Inv(b) && Registered(b, br, d, br1)
    ensures Sized(br1, Fills(Add(b, OrderOf(d)).trades))
    ensures SignedFills(Fills(Add(b, OrderOf(d)).trades)) == 0
  {
    var o := OrderOf(d);
    var trades := Add(b, o).trades;
    var fills := Fills(trades);
    forall i | 0 <= i < |trades| ensures trades[i].bid.tradedQuantity == trades[i].ask.tradedQuantity {
      TradeNames(b, o, i);
    }
    FillsCancelOut(trades);
    forall j | 0 <= j < |fills|
      ensures fills[j].tradedQuantity > 0 && fills[j].orderIdFilled in br1.details
      ensures br1.details[fills[j].orderIdFilled].side == fills[j].side
      ensures br1.details[fills[j].orderIdFilled].price == fills[j].price
    {
      FillsAt(trades, j);
      TradeNames(b, o, j / 2);
      var theirs := b.On(o.side.Opposite());
      assert RecordOf(br.details[theirs[j / 2].id], theirs[j / 2]);
      InvFrom(o.side, b);
    }
    forall id | id in br1.details ensures br1.details[id].filled + FilledIn(fills, id) <= br1.details[id].quantity {
      FilledIsTraded(trades, id);
      AddAccount(b, o, id);
      if id != o.id {
        RecordLeft(b, br, id);
      }
    }
  }

  // ---------- After a submission ----------

  /** `x` is one of `s`, unchanged but for its remaining quantity. */
  ghost predicate SameTerms(s: seq<OrderState>, x: OrderState) {
    exists j: nat :: j < |s| && x == s[j].(remaining := x.remaining)
  }

  lemma WalkTerms(o: OrderState, s: seq<OrderState>, i: nat)
    requires forall j :: 0 <= j < |s| ==> 0 < s[j].remaining
    requires i < |Walk(o, s).theirs|
    ensures SameTerms(s, Walk(o, s).theirs[i])
  {
    var k := WalkShape(o, s);
    var x := Walk(o, s).theirs[i];
    assert x == s[k + i].(remaining := x.remaining);
  }

  lemma OtherSideTerms(b: Book, o: OrderState, i: nat)
    requires Inv(b) && 0 < o.remaining && o.id !in b.Ids() && i < |Add(b, o).book.On(o.side.Opposite())|
    ensures var x := Add(b, o).book.On(o.side.Opposite())[i];
            SameTerms(b.On(o.side.Opposite()), x) && x.id != o.id
  {
    var s := b.On(o.side.Opposite());
    AddIsGreedy(b, o);
    InvFrom(o.side, b);
    WalkTerms(o, s, i);
    var x := Walk(o, s).theirs[i];
    var j: nat :| j < |s| && x == s[j].(remaining := x.remaining);
    IdsAt(s, j);
  }

  lemma InsertTerms(s: seq<OrderState>, o: OrderState, i: nat)
    requires i < |Insert(s, o)|
    ensures Insert(s, o)[i] == o || exists j: nat :: j < |s| && Insert(s, o)[i] == s[j]
  {
    var k := InsertAt(s, o);
    if i != k {
      assert Insert(s, o)[i] == s[if i < k then i else i - 1];
    }
  }

  lemma OwnSideTerms(b: Book, o: OrderState, i: nat)
    requires Inv(b) && 0 < o.remaining && o.id !in b.Ids() && i < |Add(b, o).book.On(o.side)|
    ensures var x := Add(b, o).book.On(o.side)[i];
            || (x == o.(remaining := x.remaining) && o.kind.GoodTillCancel?)
            || (SameTerms(b.On(o.side), x) && x.id != o.id)
  {
    var s, x := b.On(o.side), Add(b, o).book.On(o.side)[i];
    AddIsGreedy(b, o);
    var left := Walk(o, b.On(o.side.Opposite())).left;
    WalkKeepsIdentity(o, b.On(o.side.Opposite()));
    if Add(b, o).book.On(o.side) != s {
      InsertTerms(s, left, i);
    }
    hide Add, Insert, Walk;
    if x != left {
      var j: nat :| j < |s| && x == s[j];
      IdsAt(s, j);
      assert x == s[j].(remaining := x.remaining);
    }
  }

  /** Whatever rests after an AddOrder is the new order or rested before. */
  lemma AddKeepsTerms(b: Book, o: OrderState, side: Side, i: nat)
    requires Inv(b) && 0 < o.remaining && o.id !in b.Ids() && i < |Add(b, o).book.On(side)|
    ensures var x := Add(b, o).book.On(side)[i];
            || (x == o.(remaining := x.remaining) && o.kind.GoodTillCancel?)
            || (SameTerms(b.On(side), x) && x.id != o.id)
  {
    if side == o.side {
      OwnSideTerms(b, o, i);
    } else {
      OtherSideTerms(b, o, i);
    }
  }

  /** After the fills the broker tracks what rests, and the new order while it has a rest. */
  lemma FilledUpIds(b: Book, br: Broker, d: Details, br1: Broker, br2: Broker, id: OrderId)
    requires Inv(b) && Registered(b, br, d, br1) && OrderOf(d).id !in b.Ids()
    requires FilledUp(br1, Fills(Add(b, OrderOf(d)).trades), br2)
    ensures var r := Add(b, OrderOf(d));
            && (id in br2.details <==> if id == d.brokerId then 0 < r.left else id in r.book.Ids())
            && (id in br2.details && id != d.brokerId ==> br2.details[id].status == Working)
            && (id in br2.details ==>
                  && br2.details[id].quantity - br2.details[id].filled
                     == (if id == d.brokerId then r.left else Left(r.book, id))
                  && id in br1.details && var d1 := br1.details[id];
                     br2.details[id] == d1.(filled := br2.details[id].filled, status := br2.details[id].status))
            && (d.brokerId in br2.details ==> br2.details[d.brokerId].status in {Acknowledged, Working})
            && (d.brokerId in r.book.Ids() <==> d.kind.GoodTillCancel? && 0 < r.left)
  {
    var o := OrderOf(d);
    var r := Add(b, o);
    assert FilledUpAt(br1, Fills(r.trades), br2, id) && FilledUpAt(br1, Fills(r.trades), br2, o.id);
    FilledIsTraded(r.trades, id);
    FilledIsTraded(r.trades, o.id);
    AddAccount(b, o, id);
    AddKeepsInv(b, o);
    LeftIsPositive(r.book, id);
    LeftIsPositive(r.book, o.id);
    if id != o.id {
      if id in br.details {
        RecordLeft(b, br, id);
      } else {
        AddIds(b, o, id);
      }
    }
  }

  /** The last step: the status of the new order in the book settles its record. */
  lemma FinishMirrors(b: Book, br: Broker, d: Details, br1: Broker, br2: Broker)
    requires Inv(b) && Registered(b, br, d, br1) && OrderOf(d).id !in b.Ids()
    requires FilledUp(br1, Fills(Add(b, OrderOf(d)).trades), br2)
    ensures var r := Add(b, OrderOf(d)); Mirror(r.book, Finish(br2, d, StatusOf(d.kind, r.left)))
  {
    var o := OrderOf(d);
    var r := Add(b, o);
    var br3 := Finish(br2, d, StatusOf(d.kind, r.left));
    hide Add, Inv, FilledUp, Left, Fills, RecordOf;
    forall id ensures id in br3.details <==> id in r.book.Ids() {
      FinishIds(b, br, d, br1, br2, id);
    }
    AddKeepsInv(b, o);
    hide Finish;
    forall side: Side, i: nat | i < |r.book.On(side)|
      ensures r.book.On(side)[i].id in br3.details
      ensures RecordOf(br3.details[r.book.On(side)[i].id], r.book.On(side)[i])
    {
      FinishRecords(b, br, d, br1, br2, side, i);
    }
  }

  lemma FinishIds(b: Book, br: Broker, d: Details, br1: Broker, br2: Broker, id: OrderId)
    requires Inv(b) && Registered(b, br, d, br1) && OrderOf(d).id !in b.Ids()
    requires FilledUp(br1, Fills(Add(b, OrderOf(d)).trades), br2)
    ensures var r := Add(b, OrderOf(d));
            id in Finish(br2, d, StatusOf(d.kind, r.left)).details <==> id in r.book.Ids()
  {
    hide Add, Inv, FilledUp, Registered, Left, Fills;
    FilledUpIds(b, br, d, br1, br2, id);
  }

  /** What the last step does to one record that stays. */
  lemma FinishAt(br: Broker, d: Details, status: FinalStatus, id: OrderId)
    requires id in br.details
    requires id == d.brokerId ==> status.BookWorking? && br.details[id].status in {Acknowledged, Working}
    ensures var br' := Finish(br, d, status);
            && id in br'.details
            && br'.details[id] == if id == d.brokerId then br.details[id].(status := Working) else br.details[id]
  {
  }

  lemma FinishRecords(b: Book, br: Broker, d: Details, br1: Broker, br2: Broker, side: Side, i: nat)
    requires Inv(b) && Registered(b, br, d, br1) && OrderOf(d).id !in b.Ids()
    requires FilledUp(br1, Fills(Add(b, OrderOf(d)).trades), br2)
    requires Inv(Add(b, OrderOf(d)).book) && i < |Add(b, OrderOf(d)).book.On(side)|
    ensures var r := Add(b, OrderOf(d)); var x := r.book.On(side)[i];
            var br3 := Finish(br2, d, StatusOf(d.kind, r.left));
            x.id in br3.details && RecordOf(br3.details[x.id], x)
  {
    var o := OrderOf(d);
    var r := Add(b, o);
    var x := r.book.On(side)[i];
    hide Add, Inv, FilledUp, Left, Fills, Traded, Finish, Mirror;
    LeftAt(r.book, side, i);
    IdsAt(r.book.On(side), i);
    FilledUpIds(b, br, d, br1, br2, x.id);
    FinishAt(br2, d, StatusOf(d.kind, r.left), x.id);
    AddKeepsTerms(b, o, side, i);
    if x.id != o.id {
      var j: nat :| j < |b.On(side)| && x == b.On(side)[j].(remaining := x.remaining);
      MirroredRecord(b, br, side, j);
    } else {
      AddAccount(b, o, o.id);
    }
  }

  lemma MirroredRecord(b: Book, br: Broker, side: Side, j: nat)
    requires Mirror(b, br) && j < |b.On(side)|
    ensures b.On(side)[j].id in br.details && RecordOf(br.details[b.On(side)[j].id], b.On(side)[j])
  {
  }

  // ---------- The broker's own maps ----------

  /** `Register`, then the acknowledgement of line 146. */
  function Acked(br: Broker, d: Details): Broker {
    Register(br, d).Put(d.brokerId, d.(status := Acknowledged))
  }

  ghost predicate NewOrder(br: Broker, d: Details) {
    d.brokerId == br.counter + 1 && d.filled == 0 < d.quantity
  }

  lemma AckedTracks(br: Broker, d: Details)
    requires Tracked(br) && NewOrder(br, d)
    ensures Tracked(Acked(br, d)) && d.brokerId !in br.details
  {
    var br' := Acked(br, d);
    forall id | id in br.details ensures Live(br', id) && id != d.brokerId {
      assert Live(br, id);
    }
    assert Live(br', d.brokerId);
  }

  lemma SendTracks(br: Broker, c: Confirmation)
    requires Tracked(br) && c.filled == 0
    ensures Tracked(br.Send(c)) && SignedTotal(br.Send(c).sent) == SignedTotal(br.sent)
  {
    OneMore(br.sent, c);
    forall x | x in br.details ensures Live(br.Send(c), x) {
      assert Live(br, x);
    }
  }

  lemma CleanupTracks(br: Broker, id: OrderId)
    requires Tracked(br) && id in br.details
    ensures Tracked(br.Cleanup(br.details[id].clientId, id))
  {
    var br' := br.Cleanup(br.details[id].clientId, id);
    assert Live(br, id);
    forall x | x in br'.details ensures Live(br', x) {
      assert Live(br, x);
    }
  }

  lemma MarkTracks(br: Broker, id: OrderId)
    requires Tracked(br) && id in br.details
    ensures Tracked(br.Mark(id, Working))
  {
    var br' := br.Mark(id, Working);
    forall x | x in br'.details ensures Live(br', x) {
      assert Live(br, x);
    }
  }

  /** The record of the new order, when the book has had its say: its terms are the requested
      ones, and it is not there once filled. */
  ghost predicate SettledRecord(br: Broker, d: Details, status: FinalStatus) {
    d.brokerId in br.details ==>
      && br.details[d.brokerId] == d.(filled := br.details[d.brokerId].filled, status := br.details[d.brokerId].status)
      && !status.BookFilled?
  }

  lemma FinishTracks(br: Broker, d: Details, status: FinalStatus)
    requires Tracked(br) && SettledRecord(br, d, status)
    ensures var br' := Finish(br, d, status); Tracked(br') && SignedTotal(br'.sent) == SignedTotal(br.sent)
  {
    if d.brokerId in br.details {
      if status.BookRejected? {
        SendTracks(br, CancelNotice(d));
        CleanupTracks(br.Send(CancelNotice(d)), d.brokerId);
      } else {
        MarkTracks(br, d.brokerId);
      }
    }
  }

  // ---------- The calls ----------

  /** The submission up to the last of its fills. */
  lemma SubmissionFills(b: Book, br: Broker, d: Details)
    requires SystemOk(System(b, br)) && NewOrder(br, d) && TradesNamed(b, br, d)
    ensures var br1, fills := Acked(br, d), Fills(Add(b, OrderOf(d)).trades);
            var br2 := ProcessFills(br1, fills);
            && d.brokerId !in b.Ids() && Registered(b, br, d, br1)
            && Tracked(br1) && Fits(br1, fills)
            && Tracked(br2) && FilledUp(br1, fills, br2) && SignedTotal(br2.sent) == 0
  {
    AckedTracks(br, d);
    assert Registered(b, br, d, Acked(br, d));
    hide Tracked, Mirror, Registered, Add, Inv, Fills, ProcessFills, TradesNamed, Sized, AllNamed;
    AddSizes(b, br, d, Acked(br, d));
    AddNames(b, br, d, Acked(br, d));
    FillsKeep(Acked(br, d), Fills(Add(b, OrderOf(d)).trades));
  }

  lemma AddAnswers(s: System, c: Call)
    requires c.Place? && c.price.Some?
    requires NewDetails(s.broker, c).brokerId !in s.book.Ids()
    ensures var d := NewDetails(s.broker, c);
            var r := Add(s.book, OrderOf(d));
            var filledUp := ProcessFills(Acked(s.broker, d), Fills(r.trades));
            Submitting(s, c) == System(r.book, Finish(filledUp, d, StatusOf(d.kind, r.left)))
  {
  }

  /** The record of the new order after the fills. */
  lemma SettlesRecord(b: Book, br: Broker, d: Details)
    requires SystemOk(System(b, br)) && NewOrder(br, d) && TradesNamed(b, br, d)
    ensures var r := Add(b, OrderOf(d));
            SettledRecord(ProcessFills(Acked(br, d), Fills(r.trades)), d, StatusOf(d.kind, r.left))
  {
    var br1, r := Acked(br, d), Add(b, OrderOf(d));
    SubmissionFills(b, br, d);
    hide Tracked, Mirror, Registered, Add, Inv, Fills, ProcessFills, FilledUp;
    FilledUpIds(b, br, d, br1, ProcessFills(br1, Fills(r.trades)), d.brokerId);
  }

  /** A submission with a price and a quantity, none of whose trades will name an order under the
      empty client id. */
  predicate Sound(s: System, c: Call) {
    c.Place? && c.price.Some? && 0 < c.quantity && TradesNamed(s.book, s.broker, NewDetails(s.broker, c))
  }

  /** It keeps the invariant under any client id, live or not. */
  lemma PricedSubmission(s: System, c: Call)
    requires SystemOk(s) && Sound(s, c)
    ensures SystemOk(Submitting(s, c))
    ensures Submitting(s, c).book == Add(s.book, OrderOf(NewDetails(s.broker, c))).book
  {
    var b, br, d := s.book, s.broker, NewDetails(s.broker, c);
    var r := Add(b, OrderOf(d));
    SubmissionFills(b, br, d);
    SettlesRecord(b, br, d);
    AddAnswers(s, c);
    hide Tracked, Mirror, Registered, Inv, FilledUp, Fills, Add, Finish, ProcessFills, Submitting, SettledRecord;
    AddKeepsInv(b, OrderOf(d));
    var br2 := ProcessFills(Acked(br, d), Fills(r.trades));
    FinishMirrors(b, br, d, Acked(br, d), br2);
    FinishTracks(br2, d, StatusOf(d.kind, r.left));
  }

  /** Whatever rests after a cancel rested before. */
  lemma CancelLeaves(b: Book, id: OrderId, side: Side, i: nat) returns (j: nat)
    requires Inv(b) && i < |Cancel(b, id).On(side)|
    ensures j < |b.On(side)| && Cancel(b, id).On(side)[i] == b.On(side)[j]
  {
    hide Cancel, Inv, Remove, IdsOf;
    var s := b.On(side);
    CancelBoth(b, id);
    assert Cancel(b, id).On(side) == Remove(s, id);
    if id in IdsOf(s) {
      var k := RemoveAt(s, id);
      j := if i < k then i else i + 1;
      assert (s[..k] + s[k + 1..])[i] == s[j];
    } else {
      RemoveAbsent(s, id);
      j := i;
    }
  }

  lemma CancelMirrors(b: Book, br: Broker, id: OrderId, br': Broker)
    requires Inv(b) && Mirror(b, br) && br'.details == br.details - {id}
    ensures Mirror(Cancel(b, id), br')
  {
    CancelBoth(b, id);
    CancelKeepsInv(b, id);
    forall side: Side, i: nat | i < |Cancel(b, id).On(side)|
      ensures var x := Cancel(b, id).On(side)[i]; x.id in br'.details && RecordOf(br'.details[x.id], x)
    {
      hide Cancel, Inv, RecordOf;
      IdsAt(Cancel(b, id).On(side), i);
      var j := CancelLeaves(b, id, side, i);
      MirroredRecord(b, br, side, j);
    }
  }

  /** A cancel request for any client id at all: it goes through exactly when the id leads to a
      tracked order, which then leaves the book, as nothing else does. */
  lemma Cancellation(s: System, cid: string)
    requires SystemOk(s)
    ensures SystemOk(Cancelling(s, cid))
    ensures Cancellable(s.broker, cid) <==> cid in s.broker.toBroker
    ensures Cancelling(s, cid).broker.toBroker == s.broker.toBroker - {cid}
    ensures Cancelling(s, cid).book
            == if cid in s.broker.toBroker then Cancel(s.book, s.broker.toBroker[cid]) else s.book
    ensures var br := s.broker;
            if cid in br.toBroker then
              var id := br.toBroker[cid];
              && id in br.details
              && Cancelling(s, cid).broker == br.Send(CancelNotice(br.details[id])).Cleanup(cid, id)
            else Cancelling(s, cid) == s
  {
    var b, br := s.book, s.broker;
    if cid in br.toBroker {
      var id := br.toBroker[cid];
      LeadsTo(br, cid);
      RecordLeft(b, br, id);
      hide Inv, Mirror, Tracked, Cancel;
      CancelKeepsInv(b, id);
      CancelBoth(b, id);
      CancelAnswered(s, cid);
      var notice := CancelNotice(br.details[id]);
      SendTracks(br, notice);
      CleanupTracks(br.Send(notice), id);
      CancelMirrors(b, br, id, br.Send(notice).Cleanup(cid, id));
    }
  }

  lemma CancelAnswered(s: System, cid: string)
    requires Cancellable(s.broker, cid) && s.broker.toBroker[cid] in s.book.Ids()
    requires var id := s.broker.toBroker[cid];
             s.broker.details[id].clientId == cid && s.broker.details[id].brokerId == id
    ensures var br, id := s.broker, s.broker.toBroker[cid];
            Cancelling(s, cid)
            == System(Cancel(s.book, id), br.Send(CancelNotice(br.details[id])).Cleanup(cid, id))
  {
    hide Cancel;
  }
}
