/** The ADD_ORDER and CANCEL_ORDER commands of the server (order_book/src/order_book_server.cpp):
    one book, one request and one reply at a time. */
module Server {
  import opened Types
  import opened Matching
  import opened Greedy
  import opened Reachable
  import opened OrderBooks

  datatype FinalStatus = BookFilled | BookRejected | BookWorking

  datatype FillInfo = FillInfo(orderIdFilled: OrderId, price: Price, tradedQuantity: Quantity, side: Side)

  datatype Request =
    | AddOrder(brokerId: OrderId, side: Side, price: Price, quantity: Quantity, kind: OrderType)
    | CancelOrder(brokerId: OrderId)
  {
    function Op(): Op {
      match this
      case AddOrder(id, side, price, quantity, kind) => Submit(OrderState(id, side, price, kind, quantity, quantity))
      case CancelOrder(id) => Withdraw(id)
    }
  }

  datatype Response =
    | Ok(fills: seq<FillInfo>, finalStatus: FinalStatus)
    | Refused
    | CancelDone
    | CancelRejected

  function FillOn(t: Trade, side: Side): FillInfo {
    FillInfo(t.On(side).orderId, t.On(side).price, t.On(side).tradedQuantity, side)
  }

  /** Two fills for each trade, the bid's first. */
  function Fills(trades: seq<Trade>): seq<FillInfo> {
    if trades == [] then []
    else [FillOn(trades[0], Buy), FillOn(trades[0], Sell)] + Fills(trades[1..])
  }

  lemma {:induction false} FillsConcat(s: seq<Trade>, t: seq<Trade>)
    ensures Fills(s + t) == Fills(s) + Fills(t)
  {
    if s == [] {
      assert s + t == t;
    } else {
      assert (s + t)[1..] == s[1..] + t;
      FillsConcat(s[1..], t);
    }
  }

  /** Each trade makes two fills, the bid's and then the ask's, each with the id, the price and the
      quantity of its own side. */
  lemma {:induction false} FillsAt(trades: seq<Trade>, j: nat)
    requires j < |Fills(trades)|
    ensures |Fills(trades)| == 2 * |trades| && j / 2 < |trades|
    ensures var t := trades[j / 2];
            Fills(trades)[j] == if j % 2 == 0
                                then FillInfo(t.bid.orderId, t.bid.price, t.bid.tradedQuantity, Buy)
                                else FillInfo(t.ask.orderId, t.ask.price, t.ask.tradedQuantity, Sell)
  {
    if j >= 2 {
      FillsAt(trades[1..], j - 2);
    } else {
      FillsLength(trades);
    }
  }

  lemma {:induction false} FillsLength(trades: seq<Trade>)
    ensures |Fills(trades)| == 2 * |trades|
  {
    if trades != [] {
      FillsLength(trades[1..]);
    }
  }

  function StatusOf(kind: OrderType, left: Quantity): FinalStatus {
    if left == 0 then BookFilled else if kind.FillAndKill? then BookRejected else BookWorking
  }

  /** The response to what the book replied. */
  function ResponseTo(op: Op, reply: Reply): Response {
    match reply
    case Submitted(trades, accepted, left) =>
      if !accepted || op.Withdraw? then Refused else Ok(Fills(trades), StatusOf(op.order.kind, left))
    case Withdrawn(done) => if done then CancelDone else CancelRejected
  }

  function Serving(b: Book, request: Request): (Book, Response) {
    var (b', reply) := Step(b, request.Op());
    (b', ResponseTo(request.Op(), reply))
  }

  /** On any book: ADD_ORDER is refused exactly for an id that rests, CANCEL_ORDER exactly for one
      that does not, and a refused request changes nothing. */
  lemma Refusals(b: Book, request: Request)
    ensures var (b', response) := Serving(b, request);
            && (request.AddOrder? ==>
                  && (response.Refused? <==> request.brokerId in b.Ids())
                  && (response.Ok? <==> request.brokerId !in b.Ids())
                  && (response.Refused? ==> b' == b))
            && (request.CancelOrder? ==>
                  && (response.CancelDone? <==> request.brokerId in b.Ids())
                  && (response.CancelRejected? <==> request.brokerId !in b.Ids())
                  && (response.CancelRejected? ==> b' == b))
  {
  }

  lemma AddMatchesStep(b: Book, id: OrderId, side: Side, price: Price, quantity: Quantity, kind: OrderType)
    ensures var r := Add(b, OrderState(id, side, price, kind, quantity, quantity));
            Serving(b, AddOrder(id, side, price, quantity, kind))
            == (r.book, if r.accepted then Ok(Fills(r.trades), StatusOf(kind, r.left)) else Refused)
  {
  }

  function ServingAll(b: Book, requests: seq<Request>): (Book, seq<Response>)
    decreases |requests|
  {
    if requests == [] then (b, [])
    else
      var (b1, r) := Serving(b, requests[0]);
      var (b2, rs) := ServingAll(b1, requests[1..]);
      (b2, [r] + rs)
  }

  lemma ServingNone(b: Book)
    ensures ServingAll(b, []) == (b, [])
  {
  }

  lemma {:induction false} ServingOneMore(b: Book, requests: seq<Request>, request: Request)
    ensures var (b1, rs) := ServingAll(b, requests);
            var (b2, r) := Serving(b1, request);
            ServingAll(b, requests + [request]) == (b2, rs + [r])
    decreases |requests|
  {
    if requests == [] {
      var (b2, r) := Serving(b, request);
      assert [] + [request] == [request] && [request][1..] == [];
      assert ServingAll(b2, []) == (b2, []) && [r] + [] == [] + [r];
    } else {
      assert (requests + [request])[1..] == requests[1..] + [request];
      var (b1, r) := Serving(b, requests[0]);
      hide Serving;
      ServingOneMore(b1, requests[1..], request);
      var (b2, rs) := ServingAll(b1, requests[1..]);
      assert [r] + (rs + [Serving(b2, request).1]) == ([r] + rs) + [Serving(b2, request).1];
    }
  }

  ghost predicate AllPositive(requests: seq<Request>) {
    forall i :: 0 <= i < |requests| && requests[i].AddOrder? ==> 0 < requests[i].quantity
  }

  /** Serving any requests for positive quantities keeps the book's invariant. */
  lemma {:induction false} ServingKeepsInv(b: Book, requests: seq<Request>)
    requires Inv(b) && AllPositive(requests)
    ensures Inv(ServingAll(b, requests).0)
    decreases |requests|
  {
    if requests != [] {
      StepKeepsInv(b, requests[0].Op());
      ServingKeepsInv(Serving(b, requests[0]).0, requests[1..]);
    }
  }

  class OrderBookServer {
    const orderbook: OrderBook

    constructor ()
      ensures fresh(orderbook) && orderbook.Valid() && orderbook.Contents() == EMPTY && orderbook.Orders() == {}
    {
      orderbook := new OrderBook();
    }

    /** Lines 123-137: expand the trades into fills. */
    method Expand(trades: seq<Trade>) returns (fills: seq<FillInfo>)
      ensures fills == Fills(trades) && |fills| == 2 * |trades|
      ensures forall i :: 0 <= i < |trades| ==>
                var t := trades[i];
                && fills[2 * i] == FillInfo(t.bid.orderId, t.bid.price, t.bid.tradedQuantity, Buy)
                && fills[2 * i + 1] == FillInfo(t.ask.orderId, t.ask.price, t.ask.tradedQuantity, Sell)
    {
      fills := [];
      for i := 0 to |trades|
        invariant fills == Fills(trades[..i])
      {
        var trade := trades[i];
        FillsConcat(trades[..i], [trade]);
        assert trades[..i + 1] == trades[..i] + [trade] && [trade][1..] == [];
        fills := fills + [FillInfo(trade.bid.orderId, trade.bid.price, trade.bid.tradedQuantity, Buy)];
        fills := fills + [FillInfo(trade.ask.orderId, trade.ask.price, trade.ask.tradedQuantity, Sell)];
      }
      assert trades[..|trades|] == trades;
      FillsLength(trades);
      forall i | 0 <= i < |trades|
        ensures fills[2 * i] == FillInfo(trades[i].bid.orderId, trades[i].bid.price, trades[i].bid.tradedQuantity, Buy)
        ensures fills[2 * i + 1] == FillInfo(trades[i].ask.orderId, trades[i].ask.price,
                                             trades[i].ask.tradedQuantity, Sell)
      {
        FillsAt(trades, 2 * i);
        FillsAt(trades, 2 * i + 1);
      }
    }

    method Handle(request: Request) returns (response: Response)
      requires orderbook.Valid()
      modifies orderbook, orderbook.Orders()
      ensures orderbook.Valid() && fresh(orderbook.Orders() - old(orderbook.Orders()))
      ensures (orderbook.Contents(), response) == Serving(old(orderbook.Contents()), request)
    {
      match request
      case AddOrder(id, side, price, quantity, kind) =>
        response := HandleAdd(id, side, price, quantity, kind);
      case CancelOrder(id) =>
        var success := orderbook.CancelOrder(id);
        response := if success then CancelDone else CancelRejected;
    }

    method HandleAdd(id: OrderId, side: Side, price: Price, quantity: Quantity, kind: OrderType)
        returns (response: Response)
      requires orderbook.Valid()
      modifies orderbook, orderbook.Orders()
      ensures orderbook.Valid() && fresh(orderbook.Orders() - old(orderbook.Orders()))
      ensures (orderbook.Contents(), response)
              == Serving(old(orderbook.Contents()), AddOrder(id, side, price, quantity, kind))
      ensures response.Refused? <==> id in old(orderbook.Contents()).Ids()
    {
      Refusals(orderbook.Contents(), AddOrder(id, side, price, quantity, kind));
      AddMatchesStep(orderbook.Contents(), id, side, price, quantity, kind);
      hide Views, Add, Fills, Serving, Step, ResponseTo;
      var order := new Order(kind, id, side, price, quantity);
      Untouched();
      ghost var result := Add(old(orderbook.Contents()), order.View());
      var trades, submitted := orderbook.AddOrder(order);
      if submitted == null && trades == [] {
        response := Refused;
      } else {
        label Added:
        var fills := Expand(trades);
        Untouched@Added();
        var status := if order.IsFilled() then BookFilled
                      else if order.kind.FillAndKill? then BookRejected
                      else BookWorking;
        response := Ok(fills, status);
      }
    }

    /** Allocation does not change the book. */
    twostate lemma Untouched()
      requires unchanged(orderbook) && forall o :: o in old(orderbook.Orders()) ==> unchanged(o)
      requires old(orderbook.Valid())
      ensures orderbook.Contents() == old(orderbook.Contents())
    {
      hide Views;
      forall side: Side, n | n in orderbook.Nodes(side) ensures n.order in orderbook.Orders() {
        orderbook.NodeIsIndexed(side, n);
      }
      hide *;
      assert Views(orderbook.Nodes(Buy)) == old(Views(orderbook.Nodes(Buy)));
      assert Views(orderbook.Nodes(Sell)) == old(Views(orderbook.Nodes(Sell)));
    }

    /** The command loop, on any finite sequence of requests. */
    method Serve(requests: seq<Request>) returns (responses: seq<Response>)
      requires orderbook.Valid()
      modifies orderbook, orderbook.Orders()
      ensures orderbook.Valid()
      ensures (orderbook.Contents(), responses) == ServingAll(old(orderbook.Contents()), requests)
      ensures Inv(old(orderbook.Contents())) && AllPositive(requests) ==> Inv(orderbook.Contents())
    {
      hide Inv, AllPositive, Serving, ServingAll, OrderBook.Contents, OrderBook.Valid;
      ghost var start := orderbook.Contents();
      if Inv(start) && AllPositive(requests) {
        ServingKeepsInv(start, requests);
      }
      responses := [];
      ServingNone(start);
      for i := 0 to |requests|
        invariant orderbook.Valid() && fresh(orderbook.Orders() - old(orderbook.Orders()))
        invariant (orderbook.Contents(), responses) == ServingAll(start, requests[..i])
      {
        var response := Handle(requests[i]);
        ServingOneMore(start, requests[..i], requests[i]);
        assert requests[..i + 1] == requests[..i] + [requests[i]];
        responses := responses + [response];
      }
      assert requests[..|requests|] == requests;
    }
  }
}
