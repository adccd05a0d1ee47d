/** CppOrderBookBroker as a function of its state and the server's answers
    (position_manager/app/brokers/cpp_ob_broker.py). Blocks under the broker's lock are atomic
    here, and every request gets its one faithful answer. */
module BrokerModel {
  import opened Types
  import opened Matching
  import opened Server
  import opened Confirmations

  datatype Details = Details(
    clientId: string, brokerId: OrderId, symbol: string, quantity: Quantity, side: Side,
    kind: OrderType, price: Price, status: Status, filled: nat)

  /** The counter, the three maps, and all that the callback was given. */
  datatype Broker = Broker(
    counter: nat, toBroker: map<string, OrderId>, toClient: map<OrderId, string>,
    details: map<OrderId, Details>, sent: seq<Confirmation>)
  {
    function Send(c: Confirmation): Broker { this.(sent := sent + [c]) }

    function Cleanup(cid: string, id: OrderId): Broker {
      this.(toBroker := toBroker - {cid}, toClient := toClient - {id}, details := details - {id})
    }

    function Put(id: OrderId, d: Details): Broker { this.(details := details[id := d]) }

    /** The status of a tracked order changes. */
    function Mark(id: OrderId, status: Status): Broker
      requires id in details
    {
      Put(id, details[id].(status := status))
    }
  }

  const NEW_BROKER := Broker(0, map[], map[], map[], [])

  function Rejection(cid: string, symbol: string, side: Side): Confirmation {
    Confirmation(-1, cid, symbol, 0, side, 0, Rejected)
  }

  function CancelNotice(d: Details): Confirmation {
    Confirmation(d.brokerId, d.clientId, d.symbol, 0, d.side, d.price, Cancelled)
  }

  /** Lines 114-122: the next id, and the details stored before the request is sent. */
  function Register(br: Broker, d: Details): Broker {
    var id := br.counter + 1;
    br.(counter := id,
        toBroker := br.toBroker[d.clientId := id],
        toClient := br.toClient[id := d.clientId],
        details := br.details[id := d])
  }

  predicate Known(br: Broker, f: FillInfo) {
    f.orderIdFilled in br.toClient && br.toClient[f.orderIdFilled] != ""
    && f.orderIdFilled in br.details && f.tradedQuantity > 0
  }

  /** Lines 152-189: a fill of an unknown order is ignored. */
  function ProcessFill(br: Broker, f: FillInfo): Broker {
    if !Known(br, f) then br
    else
      var id, cid := f.orderIdFilled, br.toClient[f.orderIdFilled];
      var d := br.details[id].(filled := br.details[id].filled + f.tradedQuantity);
      var full := d.filled >= d.quantity;
      var status := if full then Filled else if d.status != Filled then Working else d.status;
      var c := Confirmation(id, cid, d.symbol, f.tradedQuantity, d.side, f.price,
                            if full then Filled else PartiallyFilled);
      var br' := br.Put(id, d.(status := status)).Send(c);
      if full then br'.Cleanup(cid, id) else br'
  }

  function ProcessFills(br: Broker, fills: seq<FillInfo>): Broker
    decreases |fills|
  {
    if fills == [] then br else ProcessFills(ProcessFill(br, fills[0]), fills[1..])
  }

  /** Lines 194-228: what the status of the new order in the book adds. */
  function Finish(br: Broker, d: Details, status: FinalStatus): Broker {
    var id := d.brokerId;
    if id !in br.details then br
    else if status.BookFilled? then
      if br.details[id].status != Filled then br.Cleanup(d.clientId, id) else br
    else if status.BookRejected? then br.Send(CancelNotice(d)).Cleanup(d.clientId, id)
    else if br.details[id].status == Acknowledged then br.Mark(id, Working)
    else br
  }

  /** Lines 137-228: after the answer to ADD_ORDER. */
  function Answered(br: Broker, d: Details, response: Response): Broker {
    if !response.Ok? then
      br.Send(Rejection(d.clientId, d.symbol, d.side)).Cleanup(d.clientId, d.brokerId)
    else
      Finish(ProcessFills(br.Put(d.brokerId, d.(status := Acknowledged)), response.fills), d, response.finalStatus)
  }

  /** The book behind the server together with the broker in front of it. */
  datatype System = System(book: Book, broker: Broker)

  datatype Call =
    | Place(clientId: string, symbol: string, quantity: Quantity, side: Side, kind: OrderType, price: Option<Price>)
    | Recall(clientId: string)

  function NewDetails(br: Broker, c: Call): Details
    requires c.Place? && c.price.Some?
  {
    Details(c.clientId, br.counter + 1, c.symbol, c.quantity, c.side, c.kind, c.price.value, PendingAck, 0)
  }

  function AddRequest(d: Details): Request { AddOrder(d.brokerId, d.side, d.price, d.quantity, d.kind) }

  function Submitting(s: System, c: Call): System
    requires c.Place?
  {
    if c.price.None? then s.(broker := s.broker.Send(Rejection(c.clientId, c.symbol, c.side)))
    else
      var d := NewDetails(s.broker, c);
      var (book, response) := Serving(s.book, AddRequest(d));
      System(book, Answered(Register(s.broker, d), d, response))
  }

  /** What submit_order returns: the broker id of an acknowledged order. */
  function Returned(s: System, c: Call): Option<OrderId>
    requires c.Place?
  {
    if c.price.Some? && Serving(s.book, AddRequest(NewDetails(s.broker, c))).1.Ok? then Some(s.broker.counter + 1)
    else None
  }

  predicate Cancellable(br: Broker, cid: string) {
    && cid in br.toBroker && br.toBroker[cid] != 0 && br.toBroker[cid] in br.details
    && br.details[br.toBroker[cid]].status !in {Filled, Cancelled, Rejected, PendingCancel}
  }

  /** Lines 254-275: the answer to CANCEL_ORDER. */
  function AfterCancel(br: Broker, cid: string, id: OrderId, done: bool): Broker
    requires id in br.details
  {
    if done then br.Send(CancelNotice(br.details[id].(clientId := cid, brokerId := id))).Cleanup(cid, id)
    else br.Mark(id, Working)
  }

  function Cancelling(s: System, cid: string): System {
    if !Cancellable(s.broker, cid) then s
    else
      var id := s.broker.toBroker[cid];
      var (book, response) := Serving(s.book, CancelOrder(id));
      System(book, AfterCancel(s.broker, cid, id, response.CancelDone?))
  }

  function Calling(s: System, c: Call): System {
    if c.Place? then Submitting(s, c) else Cancelling(s, c.clientId)
  }

  function CallingAll(s: System, calls: seq<Call>): System
    decreases |calls|
  {
    if calls == [] then s else CallingAll(Calling(s, calls[0]), calls[1..])
  }
}
