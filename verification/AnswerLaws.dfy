/** What the server answers and what the broker makes of it, in terms of the request and of the book
    before it: which requests are refused, what the fills say, and what a client is returned. */
module AnswerLaws {
  import opened Types
  import opened Matching
  import opened Greedy
  import opened Reachable
  import opened Priority
  import opened TwoRuns
  import opened Server
  import opened Confirmations
  import opened BrokerModel
  import opened FillLaws
  import opened MirrorLaws

  // ---------- The server ----------

  /** A cancel that is done takes out the order of that id and nothing else. */
  lemma CancelAnswer(b: Book, id: OrderId)
    requires Inv(b)
    ensures var b' := Serving(b, CancelOrder(id)).0;
            && b'.Ids() == b.Ids() - {id}
            && forall x :: x != id ==> Left(b', x) == Left(b, x)
  {
    CancelKeepsInv(b, id);
    InBothIds(b, id);
    forall x ensures x != id ==> Left(Cancel(b, id), x) == Left(b, x) {
      CancelAccount(b, id, x);
    }
  }

  lemma InBothIds(b: Book, id: OrderId)
    requires Inv(b)
    ensures Cancel(b, id).Ids() == b.Ids() - {id}
  {
    DisjointIds(b.bids, b.asks);
    RemoveIds(b.bids, id);
    RemoveIds(b.asks, id);
  }

  /** The `i`-th pair of fills: one of the order `id` of `side` limited at `price`, one of `x`. */
  predicate Pair(fills: seq<FillInfo>, i: nat, id: OrderId, side: Side, price: Price, x: OrderState)
    requires 2 * i + 1 < |fills|
  {
    var bid, ask := fills[2 * i], fills[2 * i + 1];
    var own, other := if side.Buy? then bid else ask, if side.Buy? then ask else bid;
    && bid.side == Buy && ask.side == Sell
    && 0 < bid.tradedQuantity == ask.tradedQuantity <= x.remaining
    && own.orderIdFilled == id && own.price == price
    && other.orderIdFilled == x.id && other.price == x.price
  }

  lemma TradePair(b: Book, o: OrderState, i: nat)
    requires Inv(b) && 0 < o.remaining && o.id !in b.Ids() && i < |Add(b, o).trades|
    ensures |Fills(Add(b, o).trades)| == 2 * |Add(b, o).trades| && i < |b.On(o.side.Opposite())|
    ensures Pair(Fills(Add(b, o).trades), i, o.id, o.side, o.price, b.On(o.side.Opposite())[i])
  {
    hide Add, Fills, Inv;
    var trades := Add(b, o).trades;
    FillsLength(trades);
    FillsAt(trades, 2 * i);
    FillsAt(trades, 2 * i + 1);
    assert 2 * i / 2 == i && (2 * i + 1) / 2 == i;
    TradeQuantity(b, o, i);
  }

  lemma TradeQuantity(b: Book, o: OrderState, i: nat)
    requires Inv(b) && 0 < o.remaining && o.id !in b.Ids() && i < |Add(b, o).trades|
    ensures var t, theirs := Add(b, o).trades[i], b.On(o.side.Opposite());
            && i < |theirs| && 0 < t.bid.tradedQuantity == t.ask.tradedQuantity <= theirs[i].remaining
            && t.On(o.side).orderId == o.id && t.On(o.side).price == o.price
            && t.On(o.side.Opposite()).orderId == theirs[i].id && t.On(o.side.Opposite()).price == theirs[i].price
  {
    var k := AddFollowsPriority(b, o);
    TradeNames(b, o, i);
    hide Add, Inv;
  }

  /** The answer to ADD_ORDER: the `i`-th pair of fills is of the new order and of the `i`-th order of
      the other side, the bid first, each at the limit price of the order it names and for the same
      quantity; the status tells whether the fills of the new order make up its quantity, and else
      whether its rest was killed or rests. */
  lemma AddAnswer(b: Book, id: OrderId, side: Side, price: Price, quantity: Quantity, kind: OrderType)
    requires Inv(b) && 0 < quantity && id !in b.Ids()
    ensures var (b', response) := Serving(b, AddOrder(id, side, price, quantity, kind));
            && response.Ok?
            && var fills, theirs := response.fills, b.On(side.Opposite());
               && |fills| % 2 == 0 && |fills| / 2 <= |theirs|
               && (forall i :: 0 <= i < |fills| / 2 ==> Pair(fills, i, id, side, price, theirs[i]))
               && FilledIn(fills, id) <= quantity
               && response.finalStatus == (if FilledIn(fills, id) == quantity then BookFilled
                                           else if kind.FillAndKill? then BookRejected else BookWorking)
               && (id in b'.Ids() <==> response.finalStatus == BookWorking)
  {
    var o := OrderState(id, side, price, kind, quantity, quantity);
    hide Add, Fills, Inv, Pair, Serving, StatusOf, FilledIn;
    ServedAsAdded(b, id, side, price, quantity, kind);
    AllPairs(b, o);
    AddStatus(b, o);
  }

  lemma AllPairs(b: Book, o: OrderState)
    requires Inv(b) && 0 < o.remaining && o.id !in b.Ids()
    ensures var fills, theirs := Fills(Add(b, o).trades), b.On(o.side.Opposite());
            && |fills| % 2 == 0 && |fills| / 2 <= |theirs|
            && forall i :: 0 <= i < |fills| / 2 ==> Pair(fills, i, o.id, o.side, o.price, theirs[i])
  {
    hide Add, Fills, Inv, Pair;
    var trades := Add(b, o).trades;
    FillsLength(trades);
    forall i: nat | i < |trades|
      ensures i < |b.On(o.side.Opposite())| && Pair(Fills(trades), i, o.id, o.side, o.price, b.On(o.side.Opposite())[i])
    {
      TradePair(b, o, i);
    }
    if trades != [] {
      TradePair(b, o, |trades| - 1);
    }
  }

  lemma AddStatus(b: Book, o: OrderState)
    requires Inv(b) && 0 < o.remaining == o.initial && o.id !in b.Ids()
    ensures var r := Add(b, o); var filled := FilledIn(Fills(r.trades), o.id);
            && filled <= o.remaining
            && StatusOf(o.kind, r.left) == (if filled == o.remaining then BookFilled
                                            else if o.kind.FillAndKill? then BookRejected else BookWorking)
            && (o.id in r.book.Ids() <==> StatusOf(o.kind, r.left) == BookWorking)
  {
    hide Add, Fills, Inv, Left, Traded;
    var r := Add(b, o);
    FilledIsTraded(r.trades, o.id);
    AddAccount(b, o, o.id);
    AddKeepsInv(b, o);
    LeftIsPositive(r.book, o.id);
  }

  lemma ServedAsAdded(b: Book, id: OrderId, side: Side, price: Price, quantity: Quantity, kind: OrderType)
    requires id !in b.Ids()
    ensures var r := Add(b, OrderState(id, side, price, kind, quantity, quantity));
            Serving(b, AddOrder(id, side, price, quantity, kind))
            == (r.book, Ok(Fills(r.trades), StatusOf(kind, r.left)))
  {
  }

  /** An order to sell 5 at 9 rests; an order to buy 5 at 10 is answered with the two limit prices. */
  lemma TwoPrices()
    ensures Serving(Book([], [OrderState(1, Sell, 9, GoodTillCancel, 5, 5)]),
                    AddOrder(2, Buy, 10, 5, GoodTillCancel)).1
            == Ok([FillInfo(2, 10, 5, Buy), FillInfo(1, 9, 5, Sell)], BookFilled)
  {
    var mine, theirs := OrderState(2, Buy, 10, GoodTillCancel, 5, 5), OrderState(1, Sell, 9, GoodTillCancel, 5, 5);
    assert [mine][1..] == [] && [theirs][1..] == [];
    assert Match(Buy, [mine], [theirs]).trades == [Trade(TradeInfo(2, 10, 5), TradeInfo(1, 9, 5))];
    assert Fills([Trade(TradeInfo(2, 10, 5), TradeInfo(1, 9, 5))])
           == [FillInfo(2, 10, 5, Buy), FillInfo(1, 9, 5, Sell)];
  }

  // ---------- What the broker returns ----------

  /** No fill is told as a rejection. */
  lemma {:induction false} FillsRejectNothing(br: Broker, fills: seq<FillInfo>)
    ensures br.sent <= ProcessFills(br, fills).sent
    ensures forall i :: |br.sent| <= i < |ProcessFills(br, fills).sent| ==>
              ProcessFills(br, fills).sent[i].status != Rejected
    decreases |fills|
  {
    if fills != [] {
      FillsRejectNothing(ProcessFill(br, fills[0]), fills[1..]);
    }
  }

  /** A submission that is refused, in any state of broker and book: without a price, or with a broker
      id that rests in the book already. One rejection is sent, nothing is returned, the book stays,
      and the maps keep nothing of it. */
  lemma RefusedSubmission(s: System, c: Call)
    requires c.Place? && (c.price.None? || s.broker.counter + 1 in s.book.Ids())
    ensures var br, s', id := s.broker, Submitting(s, c), s.broker.counter + 1;
            && Returned(s, c) == None && s'.book == s.book
            && s'.broker.sent == br.sent + [Confirmation(-1, c.clientId, c.symbol, 0, c.side, 0, Rejected)]
            && s'.broker == if c.price.None? then br.(sent := s'.broker.sent)
                            else br.(counter := id, toBroker := br.toBroker - {c.clientId},
                                     toClient := br.toClient - {id}, details := br.details - {id},
                                     sent := s'.broker.sent)
  {
    if c.price.Some? {
      RegisteredThenCleared(s.broker, NewDetails(s.broker, c), Rejection(c.clientId, c.symbol, c.side));
    }
  }

  /** Any other is sent to the book under the id that is returned, the one after the counter, and none
      of its confirmations is a rejection. */
  lemma AcceptedSubmission(s: System, c: Call)
    requires c.Place? && c.price.Some? && s.broker.counter + 1 !in s.book.Ids()
    ensures var br, s', id := s.broker, Submitting(s, c), s.broker.counter + 1;
            && Returned(s, c) == Some(id) && s'.broker.counter == id
            && s'.book == Add(s.book, OrderState(id, c.side, c.price.value, c.kind, c.quantity, c.quantity)).book
            && br.sent <= s'.broker.sent
            && forall i :: |br.sent| <= i < |s'.broker.sent| ==> s'.broker.sent[i].status != Rejected
  {
    var br, d := s.broker, NewDetails(s.broker, c);
    var r := Add(s.book, OrderOf(d));
    AddAnswers(s, c);
    FillsRejectNothing(Acked(br, d), Fills(r.trades));
    FillsCount(Acked(br, d), Fills(r.trades));
    ServedAsAdded(s.book, d.brokerId, c.side, c.price.value, c.quantity, c.kind);
    hide Add, Fills, ProcessFills, Submitting, Serving;
  }

  lemma RegisteredThenCleared(br: Broker, d: Details, c: Confirmation)
    ensures Register(br, d).Send(c).Cleanup(d.clientId, br.counter + 1)
            == br.(counter := br.counter + 1, toBroker := br.toBroker - {d.clientId},
                   toClient := br.toClient - {br.counter + 1}, details := br.details - {br.counter + 1},
                   sent := br.sent + [c])
  {
    var br' := Register(br, d).Send(c).Cleanup(d.clientId, br.counter + 1);
    assert br'.toBroker == br.toBroker - {d.clientId};
    assert br'.toClient == br.toClient - {br.counter + 1};
    assert br'.details == br.details - {br.counter + 1};
  }

  lemma {:induction false} FillsCount(br: Broker, fills: seq<FillInfo>)
    ensures ProcessFills(br, fills).counter == br.counter
    decreases |fills|
  {
    if fills != [] {
      FillsCount(ProcessFill(br, fills[0]), fills[1..]);
    }
  }

  /** A cancel request, in any state. It is not sent for an id that leads nowhere, to no order, or to one
      that is finished or being cancelled. When the book does not have the order the record goes back
      to Working and nothing is sent. When it has, one Cancelled is sent and the maps forget it. */
  lemma CancelAnswers(s: System, cid: string)
    ensures var br, s' := s.broker, Cancelling(s, cid);
            if cid !in br.toBroker || br.toBroker[cid] == 0 || br.toBroker[cid] !in br.details then s' == s
            else
              var id := br.toBroker[cid]; var d := br.details[id];
              if d.status == Filled || d.status == Cancelled || d.status == Rejected || d.status == PendingCancel then
                s' == s
              else if id !in s.book.Ids() then
                s' == s.(broker := br.(details := br.details[id := d.(status := Working)]))
              else
                && s'.book == Cancel(s.book, id)
                && s'.broker == br.(toBroker := br.toBroker - {cid}, toClient := br.toClient - {id},
                                    details := br.details - {id},
                                    sent := br.sent + [Confirmation(id, cid, d.symbol, 0, d.side, d.price, Cancelled)])
  {
    Refusals(s.book, CancelOrder(if cid in s.broker.toBroker then s.broker.toBroker[cid] else 0));
  }
}
