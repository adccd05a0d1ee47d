/** The position manager as a function of its state (position_manager/app/position_manager.py). */
module PositionModel {
  import opened Types
  import opened Confirmations

  /** The tracked details of an order the manager sent. */
  datatype LiveOrder = LiveOrder(symbol: string, quantity: nat, side: Side, status: Status, filled: nat)

  datatype Manager = Manager(
    positions: map<string, int>, targets: map<string, int>, live: map<string, LiveOrder>,
    bySymbol: map<string, seq<string>>, traded: map<string, nat>)

  const NEW_MANAGER := Manager(map[], map[], map[], map[], map[])

  /** A dictionary read with a default. */
  function Get<T>(m: map<string, T>, key: string, default: T): T { if key in m then m[key] else default }

  /** Lines 129-132: the signed quantity an order may still fill. */
  function Pending(o: LiveOrder): int {
    if o.status.Terminal() || o.quantity <= o.filled then 0 else (o.quantity - o.filled) * o.side.Sign()
  }

  function PendingOf(live: map<string, LiveOrder>, ids: seq<string>): int {
    if ids == [] then 0
    else (if ids[0] in live then Pending(live[ids[0]]) else 0) + PendingOf(live, ids[1..])
  }

  function Position(pm: Manager, symbol: string): int { Get(pm.positions, symbol, 0) }

  function Target(pm: Manager, symbol: string): int { Get(pm.targets, symbol, 0) }

  function IdsFor(pm: Manager, symbol: string): seq<string> { Get(pm.bySymbol, symbol, []) }

  /** The position once every live order has filled. */
  function WorkingPosition(pm: Manager, symbol: string): int {
    Position(pm, symbol) + PendingOf(pm.live, IdsFor(pm, symbol))
  }

  function RemoveFirst(ids: seq<string>, id: string): seq<string> {
    if ids == [] then []
    else if ids[0] == id then ids[1..]
    else [ids[0]] + RemoveFirst(ids[1..], id)
  }

  /** Lines 81-84. */
  function Forget(lists: map<string, seq<string>>, symbol: string, id: string): map<string, seq<string>> {
    if symbol !in lists || id !in lists[symbol] then lists
    else
      var rest := RemoveFirst(lists[symbol], id);
      if rest == [] then lists - {symbol} else lists[symbol := rest]
  }

  /** Lines 66-88: one confirmation. */
  function Confirm(pm: Manager, c: Confirmation): Manager {
    var pm1 := pm.(positions := pm.positions[c.symbol := Position(pm, c.symbol) + c.Signed()],
                   traded := pm.traded[c.symbol := Get(pm.traded, c.symbol, 0) + c.filled]);
    if c.clientId !in pm.live then pm1
    else if c.status.Terminal() then
      pm1.(live := pm.live - {c.clientId}, bySymbol := Forget(pm.bySymbol, c.symbol, c.clientId))
    else
      var o := pm.live[c.clientId];
      pm1.(live := pm.live[c.clientId := o.(filled := o.filled + c.filled, status := c.status)])
  }

  function ConfirmAll(pm: Manager, queue: seq<Confirmation>): Manager
    decreases |queue|
  {
    if queue == [] then pm else ConfirmAll(Confirm(pm, queue[0]), queue[1..])
  }

  /** Line 101: one target update. */
  function Retarget(pm: Manager, update: (string, int)): Manager {
    pm.(targets := pm.targets[update.0 := update.1])
  }

  function RetargetAll(pm: Manager, queue: seq<(string, int)>): Manager
    decreases |queue|
  {
    if queue == [] then pm else RetargetAll(Retarget(pm, queue[0]), queue[1..])
  }

  function Delta(pm: Manager, symbol: string): int { Target(pm, symbol) - WorkingPosition(pm, symbol) }

  /** Lines 157 and 181: does this live order work against a new order of `side`? */
  predicate Opposes(pm: Manager, id: string, side: Side) {
    && id in pm.live && pm.live[id].side != side
    && pm.live[id].status !in {Filled, Cancelled, Rejected, PendingCancel}
  }

  /** A cancel request for `id` was accepted. */
  function MarkPending(pm: Manager, id: string): Manager {
    if id in pm.live then pm.(live := pm.live[id := pm.live[id].(status := PendingCancel)]) else pm
  }

  /** The loop over a copy of the symbol's ids (lines 155-162 and 179-186); `accepts` are the
      orders the broker still knows. */
  function CancelOpposing(pm: Manager, ids: seq<string>, side: Side, accepts: set<string>): Manager
    decreases |ids|
  {
    if ids == [] then pm
    else
      var pm1 := if Opposes(pm, ids[0], side) && ids[0] in accepts then MarkPending(pm, ids[0]) else pm;
      CancelOpposing(pm1, ids[1..], side, accepts)
  }

  /** Lines 166-171 and 190-195: track a new order. */
  function Track(pm: Manager, id: string, symbol: string, side: Side, quantity: nat): Manager {
    pm.(live := pm.live[id := LiveOrder(symbol, quantity, side, PendingNew, 0)],
        bySymbol := pm.bySymbol[symbol := IdsFor(pm, symbol) + [id]])
  }

  function SideFor(delta: int): Side { if delta > 0 then Buy else Sell }

  function Abs(x: int): nat { if x < 0 then -x else x }

  /** Lines 142-197 for one symbol; `id` is the client id generated for the new order. */
  function Reconcile(pm: Manager, symbol: string, id: string, accepts: set<string>): Manager {
    var delta := Delta(pm, symbol);
    if delta == 0 then pm
    else
      Track(CancelOpposing(pm, IdsFor(pm, symbol), SideFor(delta), accepts), id, symbol, SideFor(delta), Abs(delta))
  }

  /** What the simulated broker holds of an order. */
  datatype Simulated = Simulated(symbol: string, amount: nat, side: Side, filled: nat, cancelling: bool)

  /** The broker's side of `CancelOpposing`: the orders it was asked to cancel are flagged. */
  function CancelAtBroker(pm: Manager, ids: seq<string>, side: Side, orders: map<string, Simulated>)
      : map<string, Simulated>
    decreases |ids|
  {
    if ids == [] then orders
    else if Opposes(pm, ids[0], side) && ids[0] in orders then
      CancelAtBroker(MarkPending(pm, ids[0]), ids[1..], side,
                     orders[ids[0] := orders[ids[0]].(cancelling := true)])
    else CancelAtBroker(pm, ids[1..], side, orders)
  }

  /** The broker's orders after `Reconcile`. */
  function OrdersAfter(pm: Manager, symbol: string, id: string, orders: map<string, Simulated>)
      : map<string, Simulated>
  {
    var delta := Delta(pm, symbol);
    if delta == 0 then orders
    else CancelAtBroker(pm, IdsFor(pm, symbol), SideFor(delta), orders)
           [id := Simulated(symbol, Abs(delta), SideFor(delta), 0, false)]
  }

  /** Manager and broker after reconciling these symbols in this order, each with the client id
      generated for it. */
  function ReconcileBoth(pm: Manager, orders: map<string, Simulated>, jobs: seq<(string, string)>)
      : (Manager, map<string, Simulated>)
    decreases |jobs|
  {
    if jobs == [] then (pm, orders)
    else
      var (symbol, id) := jobs[0];
      ReconcileBoth(Reconcile(pm, symbol, id, orders.Keys), OrdersAfter(pm, symbol, id, orders), jobs[1..])
  }
}
