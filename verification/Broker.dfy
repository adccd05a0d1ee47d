/** The broker object (position_manager/app/brokers/cpp_ob_broker.py): a counter, three
    dictionaries, one of them to mutable order details, in front of the server's book. Each
    method is proved to do what module BrokerModel says. */
module Brokers {
  import opened Types
  import opened OrderBooks
  import opened Server
  import opened Confirmations
  import opened BrokerModel

  class OrderDetails {
    const clientId: string
    const brokerId: OrderId
    const symbol: string
    const quantity: Quantity
    const side: Side
    const kind: OrderType
    const price: Price
    var status: Status
    var filled: nat

    constructor (clientId: string, brokerId: OrderId, symbol: string, quantity: Quantity, side: Side,
                 kind: OrderType, price: Price)
      ensures View() == Details(clientId, brokerId, symbol, quantity, side, kind, price, PendingAck, 0)
    {
      this.clientId, this.brokerId, this.symbol := clientId, brokerId, symbol;
      this.quantity, this.side, this.kind, this.price := quantity, side, kind, price;
      status, filled := PendingAck, 0;
    }

    ghost function View(): Details
      reads this
    {
      Details(clientId, brokerId, symbol, quantity, side, kind, price, status, filled)
    }
  }

  lemma UnknownFill(br: Broker, f: FillInfo)
    requires !Known(br, f)
    ensures ProcessFill(br, f) == br
  {
  }

  /** A fill of a known order: the record, the confirmation, and the maps when that fills it up. */
  lemma FillInParts(br: Broker, f: FillInfo, filled: nat, status: Status, c: Confirmation)
    requires Known(br, f)
    requires var d := br.details[f.orderIdFilled]; var full := filled >= d.quantity;
             && filled == d.filled + f.tradedQuantity
             && status == (if full then Filled else if d.status != Filled then Working else d.status)
             && c == Confirmation(f.orderIdFilled, br.toClient[f.orderIdFilled], d.symbol, f.tradedQuantity, d.side,
                                  f.price, if full then Filled else PartiallyFilled)
    ensures var id, d := f.orderIdFilled, br.details[f.orderIdFilled];
            var told := br.Put(id, d.(filled := filled, status := status)).Send(c);
            ProcessFill(br, f) == if filled >= d.quantity then told.Cleanup(br.toClient[id], id) else told
  {
  }

  /** The last step reads only the fixed terms of the new order. */
  lemma FinishReadsTerms(br: Broker, d: Details, d': Details, status: FinalStatus)
    requires d' == d.(status := d'.status, filled := d'.filled)
    ensures Finish(br, d, status) == Finish(br, d', status)
  {
  }

  /** What is written into a record before it goes is forgotten with it. */
  lemma PutThenCleanup(br: Broker, id: OrderId, d: Details, cid: string)
    ensures br.Put(id, d).Cleanup(cid, id) == br.Cleanup(cid, id)
  {
    assert br.details[id := d] - {id} == br.details - {id};
  }

  /** The optimistic PendingCancel leaves no trace once the answer is handled. */
  lemma CancelOverwrites(br: Broker, pending: Broker, cid: string, id: OrderId)
    requires id in br.details && pending == br.Mark(id, PendingCancel)
    ensures forall done :: AfterCancel(pending, cid, id, done) == AfterCancel(br, cid, id, done)
  {
    assert pending.details - {id} == br.details - {id};
  }

  class CppOrderBookBroker {
    const server: OrderBookServer
    var counter: nat
    var toBroker: map<string, OrderId>
    var toClient: map<OrderId, string>
    var details: map<OrderId, OrderDetails>
    // What trade_confirmation_callback was called with, in order.
    var sent: seq<Confirmation>

    constructor (server: OrderBookServer)
      ensures Valid() && View() == NEW_BROKER && this.server == server
    {
      this.server := server;
      counter, toBroker, toClient, details, sent := 0, map[], map[], map[], [];
    }

    ghost function Records(): set<OrderDetails>
      reads this
    {
      set id | id in details :: details[id]
    }

    /** Each record is stored under its own id, so no two ids share one. */
    ghost predicate Valid()
      reads this
    {
      forall id :: id in details ==> details[id].brokerId == id
    }

    ghost function View(): Broker
      reads this, Records()
    {
      Broker(counter, toBroker, toClient, map id | id in details :: details[id].View(), sent)
    }

    method Send(c: Confirmation)
      requires Valid()
      modifies this
      ensures Valid() && details == old(details) && View() == old(View()).Send(c)
    {
      sent := sent + [c];
    }

    method CleanupOrderMaps(cid: string, id: OrderId)
      requires Valid()
      modifies this
      ensures Valid() && View() == old(View()).Cleanup(cid, id)
      ensures details == old(details) - {id}
    {
      toBroker := toBroker - {cid};
      toClient := toClient - {id};
      details := details - {id};
    }

    /** Records only leave the map. */
    ghost predicate RecordsKept(before: map<OrderId, OrderDetails>)
      reads this
    {
      forall id :: id in details ==> id in before && before[id] == details[id]
    }

    lemma ViewIs()
      requires Valid()
      ensures View().counter == counter && View().toBroker == toBroker && View().toClient == toClient
      ensures View().details.Keys == details.Keys && View().sent == sent
      ensures forall id :: id in details ==> View().details[id] == details[id].View()
    {
    }

    /** An assignment to the fields of one stored record. */
    method SetRecord(id: OrderId, filled: nat, status: Status)
      requires Valid() && id in details
      modifies details[id]
      ensures View() == old(View()).Put(id, old(View()).details[id].(filled := filled, status := status))
    {
      details[id].filled := filled;
      details[id].status := status;
    }

    /** Lines 110-122. */
    method RegisterOrder(cid: string, symbol: string, quantity: Quantity, side: Side, kind: OrderType, price: Price)
        returns (d: OrderDetails)
      requires Valid()
      modifies this
      ensures Valid() && fresh(d) && details == old(details)[d.brokerId := d]
      ensures d.View() == NewDetails(old(View()), Place(cid, symbol, quantity, side, kind, Some(price)))
      ensures View() == Register(old(View()), d.View())
    {
      counter := counter + 1;
      assert View() == old(View()).(counter := counter);
      hide View;
      label Counted:
      d := new OrderDetails(cid, counter, symbol, quantity, side, kind, price);
      Untouched@Counted();
      Store(d);
    }

    /** Lines 119-122: the three maps learn of a new record. */
    method Store(d: OrderDetails)
      requires Valid() && d.brokerId == counter
      modifies this
      ensures Valid() && details == old(details)[d.brokerId := d] && counter == old(counter)
      ensures View() == old(View()).(toBroker := old(toBroker)[d.clientId := d.brokerId],
                                     toClient := old(toClient)[d.brokerId := d.clientId],
                                     details := old(View()).details[d.brokerId := d.View()])
    {
      toBroker := toBroker[d.clientId := d.brokerId];
      toClient := toClient[d.brokerId := d.clientId];
      details := details[d.brokerId := d];
    }

    /** Lines 152-191. */
    method HandleFill(f: FillInfo)
      requires Valid()
      modifies this, Records()
      ensures Valid() && RecordsKept(old(details)) && Records() <= old(Records())
      ensures View() == ProcessFill(old(View()), f)
    {
      ViewIs();
      hide View, ProcessFill;
      ghost var br := View();
      var id := f.orderIdFilled;
      if id in toClient && toClient[id] != "" && id in details && f.tradedQuantity > 0 {
        var cid, order := toClient[id], details[id];
        var filled := order.filled + f.tradedQuantity;
        var full := filled >= order.quantity;
        var status := if full then Filled else if order.status != Filled then Working else order.status;
        var c := Confirmation(id, cid, order.symbol, f.tradedQuantity, order.side, f.price,
                              if full then Filled else PartiallyFilled);
        FillInParts(br, f, filled, status, c);
        SetRecord(id, filled, status);
        Send(c);
        if full {
          CleanupOrderMaps(cid, id);
        }
      } else {
        UnknownFill(br, f);
      }
    }

    /** The loop of lines 151-191. */
    method HandleFills(fills: seq<FillInfo>)
      requires Valid()
      modifies this, Records()
      ensures Valid() && RecordsKept(old(details)) && Records() <= old(Records())
      ensures View() == ProcessFills(old(View()), fills)
    {
      for i := 0 to |fills|
        invariant Valid() && RecordsKept(old(details)) && Records() <= old(Records())
        invariant ProcessFills(View(), fills[i..]) == ProcessFills(old(View()), fills)
      {
        assert fills[i..][1..] == fills[i + 1..];
        HandleFill(fills[i]);
      }
    }

    /** Lines 194-228. */
    method FinishSubmission(d: OrderDetails, status: FinalStatus)
      requires Valid() && (d.brokerId in details ==> details[d.brokerId] == d)
      modifies this, Records()
      ensures Valid() && View() == Finish(old(View()), d.View(), status)
    {
      ViewIs();
      hide View;
      ghost var br := View();
      var id := d.brokerId;
      if id in details {
        var current := details[id];
        if status.BookFilled? {
          if current.status != Filled {
            PutThenCleanup(br, id, br.details[id].(filled := current.filled, status := Filled), d.clientId);
            SetRecord(id, current.filled, Filled);
            CleanupOrderMaps(d.clientId, id);
          }
        } else if status.BookRejected? {
          var c := Confirmation(id, d.clientId, d.symbol, 0, d.side, d.price, Cancelled);
          PutThenCleanup(br.Send(c), id, br.details[id].(filled := current.filled, status := Cancelled), d.clientId);
          Send(c);
          SetRecord(id, current.filled, Cancelled);
          CleanupOrderMaps(d.clientId, id);
        } else if current.status == Acknowledged {
          SetRecord(id, current.filled, Working);
        }
      }
    }

    /** The broker together with the book it talks to. */
    ghost function Whole(): System
      reads this, Records(), server.orderbook
      reads OrdersOf(server.orderbook.Nodes(Buy)), OrdersOf(server.orderbook.Nodes(Sell))
    {
      System(server.orderbook.Contents(), View())
    }

    /** Lines 137-228, once the answer is there. */
    method HandleAnswer(d: OrderDetails, response: Response) returns (id: Option<OrderId>)
      requires Valid() && d.brokerId in details && details[d.brokerId] == d && d.filled == 0
      modifies this, Records()
      ensures Valid()
      ensures View() == Answered(old(View()), old(d.View()), response)
      ensures id == if response.Ok? then Some(d.brokerId) else None
    {
      ViewIs();
      hide View, ProcessFills;
      ghost var before := d.View();
      if !response.Ok? {
        Send(Rejection(d.clientId, d.symbol, d.side));
        CleanupOrderMaps(d.clientId, d.brokerId);
        return None;
      }
      SetRecord(d.brokerId, d.filled, Acknowledged);
      HandleFills(response.fills);
      ghost var filledUp := View();
      FinishSubmission(d, response.finalStatus);
      FinishReadsTerms(filledUp, before, d.View(), response.finalStatus);
      id := Some(d.brokerId);
    }

    /** Allocation and answers of the server do not touch the broker's state. */
    twostate lemma Untouched()
      requires unchanged(this) && forall d :: d in old(Records()) ==> unchanged(d)
      ensures View() == old(View())
    {
    }

    /** A request goes to the server and its answer comes back. */
    method AskServer(request: Request) returns (response: Response)
      requires Valid() && server.orderbook.Valid()
      modifies server.orderbook, server.orderbook.Orders()
      ensures Valid() && server.orderbook.Valid() && View() == old(View())
      ensures (server.orderbook.Contents(), response) == Serving(old(server.orderbook.Contents()), request)
    {
      hide View, Serving, OrderBook.Contents, OrderBook.Valid, OrderBook.Nodes;
      response := server.Handle(request);
      Untouched();
    }

    /** Lines 124-228: send the request for a registered order and handle the answer. */
    method Transmit(d: OrderDetails) returns (id: Option<OrderId>)
      requires Valid() && server.orderbook.Valid()
      requires d.brokerId in details && details[d.brokerId] == d && d.filled == 0
      modifies this, Records(), server.orderbook, server.orderbook.Orders()
      ensures Valid() && server.orderbook.Valid()
      ensures var (book, response) := Serving(old(server.orderbook.Contents()), AddRequest(old(d.View())));
              && Whole() == System(book, Answered(old(View()), old(d.View()), response))
              && id == if response.Ok? then Some(d.brokerId) else None
    {
      hide View, Serving, Answered, OrderBook.Contents, OrderBook.Valid, OrderBook.Nodes;
      var response := AskServer(AddOrder(d.brokerId, d.side, d.price, d.quantity, d.kind));
      label Answered:
      id := HandleAnswer(d, response);
      server.Untouched@Answered();
    }

    method SubmitOrder(cid: string, symbol: string, quantity: Quantity, side: Side, kind: OrderType,
                       price: Option<Price>)
        returns (id: Option<OrderId>)
      requires Valid() && server.orderbook.Valid()
      modifies this, Records(), server.orderbook, server.orderbook.Orders()
      ensures Valid() && server.orderbook.Valid()
      ensures var call := Place(cid, symbol, quantity, side, kind, price);
              Whole() == Submitting(old(Whole()), call) && id == Returned(old(Whole()), call)
    {
      ViewIs();
      hide View, Serving, Register, Answered, OrderBook.Contents, OrderBook.Valid, OrderBook.Nodes;
      if price.None? {
        Send(Rejection(cid, symbol, side));
        server.Untouched();
        return None;
      }
      var d := RegisterOrder(cid, symbol, quantity, side, kind, price.value);
      server.Untouched();
      id := Transmit(d);
    }

    /** Lines 254-275, once the answer is there. */
    method HandleCancelAnswer(cid: string, d: OrderDetails, response: Response)
      requires Valid() && d.brokerId in details && details[d.brokerId] == d
      modifies this, d
      ensures Valid()
      ensures View() == AfterCancel(old(View()), cid, d.brokerId, response.CancelDone?)
    {
      ViewIs();
      hide View;
      if response.CancelDone? {
        PutThenCleanup(View().Send(CancelNotice(d.View().(clientId := cid))), d.brokerId,
                       d.View().(status := Cancelled), cid);
        SetRecord(d.brokerId, d.filled, Cancelled);
        Send(Confirmation(d.brokerId, cid, d.symbol, 0, d.side, d.price, Cancelled));
        CleanupOrderMaps(cid, d.brokerId);
      } else {
        SetRecord(d.brokerId, d.filled, Working);
      }
    }

    /** Line 249. */
    method MarkPending(d: OrderDetails)
      requires Valid() && d.brokerId in details && details[d.brokerId] == d
      modifies d
      ensures View() == old(View()).Mark(d.brokerId, PendingCancel)
      ensures old(View()).details[d.brokerId] == old(d.View())
      ensures View().details[d.brokerId] == d.View()
    {
      ViewIs();
      hide View;
      SetRecord(d.brokerId, d.filled, PendingCancel);
      ViewIs();
    }

    /** Lines 249-251: ask the server, optimistically marking the order meanwhile. */
    method RequestCancel(d: OrderDetails) returns (response: Response)
      requires Valid() && server.orderbook.Valid()
      requires d.brokerId in details && details[d.brokerId] == d
      modifies d, server.orderbook, server.orderbook.Orders()
      ensures Valid() && server.orderbook.Valid() && View() == old(View()).Mark(d.brokerId, PendingCancel)
      ensures (server.orderbook.Contents(), response)
              == Serving(old(server.orderbook.Contents()), Server.CancelOrder(d.brokerId))
    {
      ViewIs();
      hide *;
      MarkPending(d);
      server.Untouched();
      response := AskServer(Server.CancelOrder(d.brokerId));
    }

    /** The answer is handled; the book stays as it is. */
    method ConcludeCancel(cid: string, d: OrderDetails, response: Response)
      requires Valid() && server.orderbook.Valid() && d.brokerId in details && details[d.brokerId] == d
      modifies this, d
      ensures Valid() && server.orderbook.Valid() && server.orderbook.Contents() == old(server.orderbook.Contents())
      ensures d.brokerId in old(View()).details
      ensures View() == AfterCancel(old(View()), cid, d.brokerId, response.CancelDone?)
    {
      ViewIs();
      hide *;
      HandleCancelAnswer(cid, d, response);
      server.Untouched();
    }

    /** Lines 249-275. */
    method Withdraw(cid: string, d: OrderDetails) returns (cancelled: bool)
      requires Valid() && server.orderbook.Valid()
      requires d.brokerId in details && details[d.brokerId] == d
      modifies this, d, server.orderbook, server.orderbook.Orders()
      ensures Valid() && server.orderbook.Valid()
      ensures var (book, response) := Serving(old(server.orderbook.Contents()), Server.CancelOrder(d.brokerId));
              && cancelled == response.CancelDone?
              && server.orderbook.Contents() == book
              && View() == AfterCancel(old(View()), cid, d.brokerId, cancelled)
    {
      ViewIs();
      hide *;
      var response := RequestCancel(d);
      CancelOverwrites(old(View()), View(), cid, d.brokerId);
      ConcludeCancel(cid, d, response);
      cancelled := response.CancelDone?;
    }

    /** Lines 233-275. */
    method CancelOrder(cid: string) returns (cancelled: bool)
      requires Valid() && server.orderbook.Valid()
      modifies this, Records(), server.orderbook, server.orderbook.Orders()
      ensures Valid() && server.orderbook.Valid()
      ensures Whole() == Cancelling(old(Whole()), cid)
      ensures if !cancelled then sent == old(sent)
              else |sent| == |old(sent)| + 1
                   && sent[|sent| - 1].clientId == cid && sent[|sent| - 1].status == Cancelled
    {
      ViewIs();
      hide View, OrderBook.Contents, OrderBook.Valid, OrderBook.Nodes, Serving;
      if cid !in toBroker || toBroker[cid] == 0 || toBroker[cid] !in details {
        return false;
      }
      var d := details[toBroker[cid]];
      if d.status in {Filled, Cancelled, Rejected, PendingCancel} {
        return false;
      }
      cancelled := Withdraw(cid, d);
      ViewIs();
    }
  }
}
