/** What brokers tell their client: trade confirmations, and what a sequence of them says of one
    client order (position_manager/app/brokers/broker_interface.py). */
module Confirmations {
  import opened Types

  datatype Status =
    | PendingNew | PendingAck | Acknowledged | Working | PendingCancel
    | PartiallyFilled | Filled | Cancelled | Rejected
  {
    predicate Terminal() { Filled? || Cancelled? || Rejected? }
  }

  datatype Confirmation = Confirmation(
    orderId: int, clientId: string, symbol: string, filled: nat, side: Side, price: nat, status: Status)
  {
    function Signed(): int { filled * side.Sign() }
  }

  /** The signed filled quantity of all confirmations. */
  function SignedTotal(sent: seq<Confirmation>): int {
    if sent == [] then 0 else SignedTotal(sent[..|sent| - 1]) + sent[|sent| - 1].Signed()
  }

  /** The confirmations of one client order, in order. */
  function Of(sent: seq<Confirmation>, cid: string): seq<Confirmation> {
    if sent == [] then []
    else
      var last := sent[|sent| - 1];
      Of(sent[..|sent| - 1], cid) + (if last.clientId == cid then [last] else [])
  }

  function FilledTotal(trace: seq<Confirmation>): nat {
    if trace == [] then 0 else FilledTotal(trace[..|trace| - 1]) + trace[|trace| - 1].filled
  }

  /** The signed quantity that confirmations report in one symbol. */
  function NetFilled(confs: seq<Confirmation>, symbol: string): int {
    if confs == [] then 0
    else (if confs[0].symbol == symbol then confs[0].Signed() else 0) + NetFilled(confs[1..], symbol)
  }

  function GrossFilled(confs: seq<Confirmation>, symbol: string): nat {
    if confs == [] then 0
    else (if confs[0].symbol == symbol then confs[0].filled else 0) + GrossFilled(confs[1..], symbol)
  }

  lemma OneMore(sent: seq<Confirmation>, c: Confirmation)
    ensures SignedTotal(sent + [c]) == SignedTotal(sent) + c.Signed()
    ensures FilledTotal(sent + [c]) == FilledTotal(sent) + c.filled
    ensures forall cid :: Of(sent + [c], cid) == Of(sent, cid) + if c.clientId == cid then [c] else []
  {
    assert (sent + [c])[..|sent|] == sent;
  }

  /** What the client asked for under one id. */
  datatype Terms = Terms(clientId: string, quantity: Quantity, symbol: string, side: Side, price: nat)

  /** A confirmation speaks of the order that was asked for: its client id, symbol and side, and its
      limit price, which only a rejection leaves out. */
  predicate Says(c: Confirmation, t: Terms) {
    && c.clientId == t.clientId && c.symbol == t.symbol && c.side == t.side
    && c.price == if c.status.Rejected? then 0 else t.price
  }

  ghost predicate Told(trace: seq<Confirmation>, t: Terms) { forall i :: 0 <= i < |trace| ==> Says(trace[i], t) }

  lemma ToldMore(trace: seq<Confirmation>, t: Terms, c: Confirmation)
    requires Told(trace, t) && Says(c, t)
    ensures Told(trace + [c], t)
  {
  }

  /** A live order has only been partially filled so far, by `filled` in all. */
  ghost predicate Open(trace: seq<Confirmation>, filled: nat) {
    && (forall i :: 0 <= i < |trace| ==> trace[i].status == PartiallyFilled)
    && FilledTotal(trace) == filled
  }

  /** A finished order: partial fills, then exactly one terminal status; the fills never exceed
      the quantity, and the status is Filled exactly when they reach it. */
  ghost predicate Closed(trace: seq<Confirmation>, quantity: nat) {
    && trace != []
    && (forall i :: 0 <= i < |trace| - 1 ==> trace[i].status == PartiallyFilled)
    && trace[|trace| - 1].status.Terminal()
    && FilledTotal(trace) <= quantity
    && (trace[|trace| - 1].status == Filled <==> FilledTotal(trace) == quantity)
  }

  lemma StaysOpen(trace: seq<Confirmation>, filled: nat, c: Confirmation)
    requires Open(trace, filled) && c.status == PartiallyFilled
    ensures Open(trace + [c], filled + c.filled)
  {
    OneMore(trace, c);
  }

  lemma Closes(trace: seq<Confirmation>, filled: nat, quantity: nat, c: Confirmation)
    requires Open(trace, filled) && c.status.Terminal() && filled + c.filled <= quantity
    requires c.status == Filled <==> filled + c.filled == quantity
    ensures Closed(trace + [c], quantity)
  {
    OneMore(trace, c);
  }
}
