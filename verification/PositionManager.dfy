/** The position manager and the simulated broker as objects. Each method is proved to do what
    module PositionModel says; module Interleaving interleaves the same steps. */
module PositionManagers {
  import opened Types
  import opened Confirmations
  import opened PositionModel
  import opened PositionLaws
  import opened Interleaving

  /** `queue.Queue`: what the broker's callback puts, the manager gets. */
  class ConfirmationQueue {
    var items: seq<Confirmation>

    constructor ()
      ensures items == []
    {
      items := [];
    }
  }

  /** position_manager/app/brokers/simulated_broker.py, class SimulatedOrder. */
  class SimulatedOrder {
    const brokerId: nat
    const clientId: string
    const symbol: string
    const amount: nat
    const side: Side
    var filled: nat
    var cancelling: bool

    constructor (brokerId: nat, clientId: string, symbol: string, amount: nat, side: Side)
      ensures this.brokerId == brokerId && this.clientId == clientId
      ensures View() == Simulated(symbol, amount, side, 0, false)
    {
      this.brokerId, this.clientId, this.symbol, this.amount, this.side := brokerId, clientId, symbol, amount, side;
      filled, cancelling := 0, false;
    }

    ghost function View(): Simulated
      reads this
    {
      Simulated(symbol, amount, side, filled, cancelling)
    }

    method CancelOrder()
      modifies this`cancelling
      ensures View() == old(View()).(cancelling := true)
    {
      cancelling := true;
    }

    ghost function AsThread(phase: Phase): Thread
      reads this
    {
      Thread(clientId, symbol, amount, side, filled, cancelling, phase)
    }

    /** Between any two steps of the thread another one may ask to cancel the order. */
    method Interrupted()
      modifies this`cancelling
      ensures old(cancelling) ==> cancelling
    {
      if * {
        CancelOrder();
      }
    }

    /** The thread's whole run, with a cancel arriving at any time or never. It passes through
        steps that Interleaving knows, from the loop test to the report; an order whose cancel
        was there before stops where it is, one that is never cancelled fills up, whatever the
        sizes of the fills, and Filled is only ever said of a complete order. */
    method ExecuteOrderThread() returns (c: Confirmation, ghost path: seq<Thread>)
      requires filled <= amount
      modifies this
      ensures Path(path, old(AsThread(AtLoop)), AsThread(AtReport(c.status)))
      ensures c.orderId == brokerId && c.clientId == clientId && c.symbol == symbol && c.side == side
      ensures c.filled == filled && c.price == 100 && old(filled) <= filled <= amount
      ensures c.status == Filled || c.status == Cancelled
      ensures c.status == Filled ==> filled == amount
      ensures c.status == Cancelled ==> cancelling
      ensures !cancelling ==> c.status == Filled
      ensures old(cancelling) ==> c.status == Cancelled && filled == old(filled)
      ensures forall i :: 0 <= i < |path| - 1 ==> SlowStep(path[i].filled, path[i + 1].filled, amount)
    {
      hide Path;
      ghost var start := AsThread(AtLoop);
      path := Standing(start);
      Interrupted();
      path := Longer(path, start, start, AsThread(AtLoop));
      while !cancelling && filled < amount
        invariant old(filled) <= filled <= amount && (old(cancelling) ==> cancelling && filled == old(filled))
        invariant Path(path, start, AsThread(AtLoop))
        decreases amount - filled
      {
        path := FillOnce(path, start);
      }
      path := Longer(path, start, AsThread(AtLoop), AsThread(AtStatus));
      ghost var now := AsThread(AtStatus);
      Interrupted();
      path := Longer(path, start, now, AsThread(AtStatus));
      var status := if cancelling then Cancelled else Filled;
      path := Longer(path, start, AsThread(AtStatus), AsThread(AtReport(status)));
      now := AsThread(AtReport(status));
      Interrupted();
      path := Longer(path, start, now, AsThread(AtReport(status)));
      PathIsSlow(path, start, AsThread(AtReport(status)));
      c := Confirmation(brokerId, clientId, symbol, filled, side, 100, status);
    }

    /** The body of the loop (lines 42-47), from one loop test to the next. */
    method FillOnce(ghost path: seq<Thread>, ghost start: Thread) returns (ghost path': seq<Thread>)
      requires !cancelling && filled < amount && Path(path, start, AsThread(AtLoop))
      modifies this
      ensures old(filled) < filled <= amount && Path(path', start, AsThread(AtLoop))
    {
      hide Path;
      path' := Longer(path, start, AsThread(AtLoop), AsThread(AtFill));
      ghost var now := AsThread(AtFill);
      Interrupted();
      path' := Longer(path', start, now, AsThread(AtFill));
      var k: nat :| 1 <= k <= MaxFill(amount);
      now := AsThread(AtFill);
      filled := if k <= amount - filled then filled + k else amount;
      assert AsThread(AtLoop) == now.Fill(k);
      path' := Longer(path', start, now, AsThread(AtLoop));
      now := AsThread(AtLoop);
      Interrupted();
      path' := Longer(path', start, now, AsThread(AtLoop));
    }
  }

  /** A way of an order from `start` to `end` by steps of its thread and cancels. */
  ghost predicate Path(path: seq<Thread>, start: Thread, end: Thread) {
    && path != [] && path[0] == start && path[|path| - 1] == end
    && forall i :: 0 <= i < |path| - 1 ==> path[i + 1] == path[i] || ThreadStep(path[i], path[i + 1])
  }

  /** From one step to the next an order of this amount gains at most a tenth of it, or one share. */
  predicate SlowStep(filled: nat, filled': nat, amount: nat) {
    filled <= filled' && (filled' <= filled + amount / 10 || filled' == filled + 1)
  }

  lemma ThreadStepIsSlow(t: Thread, t': Thread)
    requires (t' == t || ThreadStep(t, t')) && t.filled <= t.amount
    ensures t'.filled <= t'.amount == t.amount && SlowStep(t.filled, t'.filled, t.amount)
  {
  }

  lemma {:induction false} PathIsSlow(path: seq<Thread>, start: Thread, end: Thread)
    requires Path(path, start, end) && start.filled <= start.amount
    ensures forall i :: 0 <= i < |path| ==> path[i].filled <= path[i].amount == start.amount
    ensures forall i :: 0 <= i < |path| - 1 ==> SlowStep(path[i].filled, path[i + 1].filled, start.amount)
  {
    if |path| > 1 {
      var front := path[..|path| - 1];
      assert forall i :: 0 <= i < |front| ==> front[i] == path[i];
      hide ThreadStep, SlowStep;
      PathIsSlow(front, start, front[|front| - 1]);
      assert path[|path| - 2 + 1] == path[|path| - 2] || ThreadStep(path[|path| - 2], path[|path| - 2 + 1]);
      ThreadStepIsSlow(path[|path| - 2], path[|path| - 1]);
    }
  }

  ghost function Standing(t: Thread): (path: seq<Thread>)
    ensures Path(path, t, t)
  {
    [t]
  }

  ghost function Longer(path: seq<Thread>, start: Thread, now: Thread, t: Thread): (longer: seq<Thread>)
    requires Path(path, start, now) && (t == now || ThreadStep(now, t))
    ensures Path(longer, start, t)
  {
    path + [t]
  }

  /** position_manager/app/brokers/simulated_broker.py, class SimulatedBroker. */
  class SimulatedBroker {
    const callback: ConfirmationQueue
    var nextId: nat
    var live: map<string, SimulatedOrder>
    // Orders whose threads were started, in order.
    var started: seq<SimulatedOrder>
    // Confirmations that timers will pass on.
    var scheduled: seq<Confirmation>

    constructor (callback: ConfirmationQueue)
      ensures Valid() && live == map[] && this.callback == callback && started == [] && scheduled == []
    {
      this.callback := callback;
      nextId, live, started, scheduled := 0, map[], [], [];
    }

    ghost function Orders(): set<SimulatedOrder>
      reads this
    {
      set id | id in live :: live[id]
    }

    ghost predicate Valid()
      reads this
    {
      forall id :: id in live ==> live[id].clientId == id && live[id] in started
    }

    ghost function View(): map<string, Simulated>
      reads this, Orders()
    {
      map id | id in live :: live[id].View()
    }

    lemma ViewKeys()
      ensures View().Keys == live.Keys
    {
    }

    /** The manager's doings do not touch the broker's own state. */
    twostate lemma Untouched()
      requires unchanged(this) && forall o :: o in old(Orders()) ==> unchanged(o)
      ensures View() == old(View())
    {
      forall id | id in live ensures live[id].View() == old(live[id].View()) {
        assert live[id] in old(Orders());
      }
    }

    /** Lines 79-95: the order is over; its confirmation goes on to the manager. */
    method InternalTradeCallback(c: Confirmation)
      requires Valid()
      modifies this`live, callback
      ensures Valid() && View() == old(View()) - {c.clientId}
      ensures callback.items == old(callback.items) + [c]
    {
      live := live - {c.clientId};
      callback.items := callback.items + [c];
    }

    /** Lines 118-131: the order is live, and its thread runs. */
    method Start(order: SimulatedOrder)
      requires Valid() && order.clientId !in live
      modifies this`live, this`started
      ensures Valid() && live == old(live)[order.clientId := order] && started == old(started) + [order]
      ensures View() == old(View())[order.clientId := order.View()]
      ensures Orders() <= old(Orders()) + {order}
    {
      live := live[order.clientId := order];
      started := started + [order];
    }

    /** Lines 98-132: a live client id is refused, with a rejection scheduled for later; any
        other gets the next id, an unfilled order and a thread of its own. */
    method SubmitOrder(cid: string, symbol: string, quantity: nat, side: Side) returns (id: Option<nat>)
      requires Valid()
      modifies this
      ensures Valid() && fresh(Orders() - old(Orders())) && live.Keys == old(live.Keys) + {cid}
      ensures nextId == old(nextId) + (if id.Some? then 1 else 0)
      ensures if cid in old(live)
              then id == None && View() == old(View()) && started == old(started)
                   && scheduled == old(scheduled) + [Confirmation(-1, cid, symbol, 0, side, 0, Rejected)]
              else id == Some(old(nextId)) && scheduled == old(scheduled)
                   && View() == old(View())[cid := Simulated(symbol, quantity, side, 0, false)]
                   && started == old(started) + [live[cid]] && live[cid].brokerId == old(nextId)
    {
      if cid in live {
        scheduled := scheduled + [Confirmation(-1, cid, symbol, 0, side, 0, Rejected)];
        assert live.Keys + {cid} == live.Keys;
        return None;
      }
      id := Some(nextId);
      nextId := nextId + 1;
      assert View() == old(View());
      hide View;
      label Numbered:
      var order := new SimulatedOrder(id.value, cid, symbol, quantity, side);
      Untouched@Numbered();
      Start(order);
    }

    /** The timer of line 114 fires: one of the scheduled confirmations, in whatever order, goes
        to the manager. */
    method FireTimer(i: nat)
      requires i < |scheduled|
      modifies this`scheduled, callback
      ensures callback.items == old(callback.items) + [old(scheduled[i])]
      ensures scheduled == old(scheduled[..i] + scheduled[i + 1..])
    {
      callback.items := callback.items + [scheduled[i]];
      scheduled := scheduled[..i] + scheduled[i + 1..];
    }

    /** Lines 134-146. */
    method CancelOrder(cid: string) returns (accepted: bool)
      requires Valid()
      modifies Orders()
      ensures accepted <==> cid in live
      ensures View() == if accepted then old(View())[cid := old(View())[cid].(cancelling := true)] else old(View())
    {
      accepted := cid in live;
      if accepted {
        live[cid].CancelOrder();
      }
    }
  }

  /** The details the manager tracks of an order it sent. */
  class TrackedOrder {
    const symbol: string
    const quantity: nat
    const side: Side
    var status: Status
    var filled: nat

    constructor (symbol: string, quantity: nat, side: Side)
      ensures View() == LiveOrder(symbol, quantity, side, PendingNew, 0)
    {
      this.symbol, this.quantity, this.side := symbol, quantity, side;
      status, filled := PendingNew, 0;
    }

    ghost function View(): LiveOrder
      reads this
    {
      LiveOrder(symbol, quantity, side, status, filled)
    }
  }

  class PositionManager {
    const broker: SimulatedBroker
    const confQ: ConfirmationQueue
    var targetQ: seq<(string, int)>
    var positions: map<string, int>
    var targets: map<string, int>
    var live: map<string, TrackedOrder>
    var bySymbol: map<string, seq<string>>
    var traded: map<string, nat>
    // Client ids drawn so far; each new id is longer than all of them.
    var drawn: nat

    constructor (broker: SimulatedBroker, confQ: ConfirmationQueue)
      requires broker.callback == confQ && broker.live == map[] && broker.Valid()
      ensures Valid() && View() == NEW_MANAGER && targetQ == []
      ensures this.broker == broker && this.confQ == confQ
    {
      this.broker, this.confQ := broker, confQ;
      targetQ, positions, targets := [], map[], map[];
      live, bySymbol, traded, drawn := map[], map[], map[], 0;
    }

    ghost function Records(): set<TrackedOrder>
      reads this
    {
      set id | id in live :: live[id]
    }

    /** Distinct orders have distinct records. */
    ghost predicate Separate()
      reads this
    {
      forall a, b :: a in live && b in live && a != b ==> live[a] != live[b]
    }

    /** No id is longer than the ids drawn so far. */
    ghost predicate Drawn(ids: set<string>)
      reads this`drawn
    {
      forall id :: id in ids ==> |id| < drawn
    }

    ghost predicate Valid()
      reads this, broker
    {
      Separate() && broker.Valid() && broker.callback == confQ && Drawn(live.Keys) && Drawn(broker.live.Keys)
    }

    ghost function View(): Manager
      reads this, Records()
    {
      Manager(positions, targets, map id | id in live :: live[id].View(), bySymbol, traded)
    }

    lemma ViewIs()
      ensures View().live.Keys == live.Keys && View().bySymbol == bySymbol && View().positions == positions
      ensures View().targets == targets && View().traded == traded
      ensures forall id :: id in live ==> View().live[id] == live[id].View()
    {
    }

    /** An assignment to the fields of one record. */
    method SetRecord(id: string, filled: nat, status: Status)
      requires Separate() && id in live
      modifies live[id]
      ensures var pm := old(View());
              View() == pm.(live := pm.live[id := pm.live[id].(filled := filled, status := status)])
    {
      live[id].filled := filled;
      live[id].status := status;
    }

    /** Lines 80-84: stop tracking a finished order. */
    method ForgetOrder(id: string, symbol: string)
      requires Separate() && id in live
      modifies this
      ensures Separate() && live == old(live) - {id} && targetQ == old(targetQ) && drawn == old(drawn)
      ensures View() == old(View()).(live := old(View()).live - {id}, bySymbol := Forget(old(bySymbol), symbol, id))
    {
      hide View, Forget;
      ForgetRecord(id);
      ForgetId(id, symbol);
    }

    /** Line 80. */
    method ForgetRecord(id: string)
      requires Separate() && id in live
      modifies this`live
      ensures Separate() && live == old(live) - {id}
      ensures View() == old(View()).(live := old(View()).live - {id})
    {
      live := live - {id};
      assert View().live == old(View()).live - {id};
    }

    /** Lines 81-84: an emptied list goes. */
    method ForgetId(id: string, symbol: string)
      modifies this`bySymbol
      ensures bySymbol == Forget(old(bySymbol), symbol, id) && View() == old(View()).(bySymbol := bySymbol)
    {
      if symbol in bySymbol && id in bySymbol[symbol] {
        bySymbol := bySymbol[symbol := RemoveFirst(bySymbol[symbol], id)];
        if bySymbol[symbol] == [] {
          bySymbol := bySymbol - {symbol};
        }
      }
    }

    /** Lines 69-70. */
    method AddToPosition(c: Confirmation)
      modifies this
      ensures live == old(live) && targetQ == old(targetQ) && drawn == old(drawn) && bySymbol == old(bySymbol)
      ensures var pm := old(View());
              View() == pm.(positions := pm.positions[c.symbol := Position(pm, c.symbol) + c.Signed()],
                            traded := pm.traded[c.symbol := Get(pm.traded, c.symbol, 0) + c.filled])
    {
      positions := positions[c.symbol := Get(positions, c.symbol, 0) + c.filled * c.side.Sign()];
      traded := traded[c.symbol := Get(traded, c.symbol, 0) + c.filled];
    }

    /** Lines 74-86, for a known order. */
    method UpdateOrder(c: Confirmation)
      requires Separate() && c.clientId in live
      modifies this, live[c.clientId]
      ensures Separate() && live.Keys <= old(live.Keys) && Records() <= old(Records())
      ensures targetQ == old(targetQ) && drawn == old(drawn)
      ensures var pm, o := old(View()), old(live[c.clientId].View());
              View() == if c.status.Terminal()
                        then pm.(live := pm.live - {c.clientId}, bySymbol := Forget(pm.bySymbol, c.symbol, c.clientId))
                        else pm.(live := pm.live[c.clientId := o.(filled := o.filled + c.filled, status := c.status)])
    {
      ViewIs();
      hide View, Forget;
      ghost var tracked := View().live;
      SetRecord(c.clientId, live[c.clientId].filled + c.filled, c.status);
      ViewIs();
      if c.status.Terminal() {
        assert View().live - {c.clientId} == tracked - {c.clientId};
        ForgetOrder(c.clientId, c.symbol);
      }
    }

    /** Lines 66-88. */
    method ProcessConfirmation(c: Confirmation)
      requires Separate()
      modifies this, Records()
      ensures Separate() && live.Keys <= old(live.Keys) && Records() <= old(Records())
      ensures targetQ == old(targetQ) && drawn == old(drawn)
      ensures View() == Confirm(old(View()), c)
    {
      ViewIs();
      hide View, Forget, Position, Get, Confirmation.Signed;
      AddToPosition(c);
      if c.clientId in live {
        UpdateOrder(c);
      }
    }

    /** Lines 55-89: drain the queue. */
    method ProcessTradeConfirmations() returns (affected: set<string>)
      requires Separate()
      modifies this, Records(), confQ
      ensures Separate() && live.Keys <= old(live.Keys) && Records() <= old(Records())
      ensures targetQ == old(targetQ) && drawn == old(drawn)
      ensures confQ.items == [] && View() == ConfirmAll(old(View()), old(confQ.items))
      ensures forall s :: s in affected <==> Touched(old(confQ.items), [], s)
    {
      hide View, Confirm, Touched;
      affected := {};
      ghost var queue := confQ.items;
      NothingTouched();
      ghost var n := 0;
      while confQ.items != []
        invariant Separate() && live.Keys <= old(live.Keys) && Records() <= old(Records())
        invariant targetQ == old(targetQ) && drawn == old(drawn)
        invariant 0 <= n <= |queue| && confQ.items == queue[n..]
        invariant ConfirmAll(View(), confQ.items) == ConfirmAll(old(View()), queue)
        invariant forall s :: s in affected <==> Touched(queue[..n], [], s)
        decreases |confQ.items|
      {
        var c := confQ.items[0];
        confQ.items := confQ.items[1..];
        TouchedMore(queue, n);
        affected := affected + {c.symbol};
        ProcessConfirmation(c);
        n := n + 1;
      }
      assert queue[..n] == queue;
    }

    /** Lines 91-103. */
    method ProcessTargetUpdates() returns (affected: set<string>)
      modifies this
      ensures targetQ == [] && View() == RetargetAll(old(View()), old(targetQ))
      ensures live == old(live) && drawn == old(drawn)
      ensures forall s :: s in affected <==> Touched([], old(targetQ), s)
    {
      affected := {};
      ghost var queue := targetQ;
      ghost var n := 0;
      while targetQ != []
        invariant live == old(live) && drawn == old(drawn)
        invariant 0 <= n <= |queue| && targetQ == queue[n..]
        invariant RetargetAll(View(), targetQ) == RetargetAll(old(View()), queue)
        invariant forall s :: s in affected <==> Touched([], queue[..n], s)
        decreases |targetQ|
      {
        var (symbol, amount) := targetQ[0];
        ghost var before := View();
        targetQ := targetQ[1..];
        targets := targets[symbol := amount];
        assert View() == Retarget(before, queue[n]);
        affected := affected + {symbol};
        RetouchedMore(queue, n);
        n := n + 1;
      }
      assert queue[..n] == queue;
    }

    /** Lines 106-108: a strategy asks for a position. */
    method UpdateTargetPosition(symbol: string, targetAmount: int)
      modifies this`targetQ
      ensures targetQ == old(targetQ) + [(symbol, targetAmount)] && View() == old(View())
      ensures Target(RetargetAll(View(), targetQ), symbol) == targetAmount
      ensures forall s :: s != symbol ==>
                Target(RetargetAll(View(), targetQ), s) == Target(RetargetAll(View(), old(targetQ)), s)
    {
      targetQ := targetQ + [(symbol, targetAmount)];
      hide View, Target, RetargetAll;
      forall s ensures Target(RetargetAll(View(), targetQ), s)
                       == if s == symbol then targetAmount else Target(RetargetAll(View(), old(targetQ)), s)
      {
        OneMoreUpdate(View(), old(targetQ), (symbol, targetAmount), s);
      }
    }

    /** Lines 122-133. */
    method CalculateWorkingPosition(symbol: string) returns (working: int)
      ensures working == WorkingPosition(View(), symbol)
    {
      ViewIs();
      working := Get(positions, symbol, 0);
      var ids := Get(bySymbol, symbol, []);
      for i := 0 to |ids|
        invariant working + PendingOf(View().live, ids[i..]) == WorkingPosition(View(), symbol)
      {
        assert ids[i..][1..] == ids[i + 1..];
        if ids[i] in live {
          var order := live[ids[i]];
          if !order.status.Terminal() && order.quantity - order.filled > 0 {
            working := working + (order.quantity - order.filled) * order.side.Sign();
          }
        }
      }
    }

    /** Lines 154-162 and 178-186: ask the broker to cancel the orders on the other side; it
        accepts exactly those it still knows. */
    method CancelOpposingOrders(symbol: string, side: Side)
      requires Valid()
      modifies Records(), broker.Orders()
      ensures Valid()
      ensures View() == CancelOpposing(old(View()), Get(bySymbol, symbol, []), side, broker.live.Keys)
      ensures broker.View() == CancelAtBroker(old(View()), Get(bySymbol, symbol, []), side, old(broker.View()))
    {
      broker.ViewKeys();
      hide View, MarkPending, SimulatedBroker.View, Opposes;
      var ids := Get(bySymbol, symbol, []);
      for i := 0 to |ids|
        invariant CancelOpposing(View(), ids[i..], side, broker.live.Keys)
                  == CancelOpposing(old(View()), ids, side, broker.live.Keys)
        invariant CancelAtBroker(View(), ids[i..], side, broker.View())
                  == CancelAtBroker(old(View()), ids, side, old(broker.View()))
      {
        assert ids[i..][0] == ids[i] && ids[i..][1..] == ids[i + 1..];
        broker.ViewKeys();
        CancelIfOpposing(ids[i], side);
      }
    }

    /** Lines 156-162 and 180-186, for one id. */
    method CancelIfOpposing(id: string, side: Side)
      requires Valid()
      modifies Records(), broker.Orders()
      ensures var pm, orders, asked := old(View()), old(broker.View()),
                                       Opposes(old(View()), id, side) && id in broker.live;
              && View() == (if asked then MarkPending(pm, id) else pm)
              && broker.View() == if asked then orders[id := orders[id].(cancelling := true)] else orders
    {
      ViewIs();
      broker.ViewKeys();
      hide View, MarkPending, SimulatedBroker.View;
      if id in live && live[id].side != side && live[id].status !in {Filled, Cancelled, Rejected, PendingCancel} {
        AskToCancel(id);
      }
    }

    /** Lines 159-162 and 183-186. */
    method AskToCancel(id: string)
      requires Valid() && id in live
      modifies live[id], broker.Orders()
      ensures View() == if id in broker.live then MarkPending(old(View()), id) else old(View())
      ensures broker.View() == if id in broker.live
                               then old(broker.View())[id := old(broker.View())[id].(cancelling := true)]
                               else old(broker.View())
    {
      ViewIs();
      broker.ViewKeys();
      hide View, SimulatedBroker.View;
      label Asked:
      var accepted := broker.CancelOrder(id);
      Untouched@Asked();
      label Cancelled:
      if accepted {
        SetRecord(id, live[id].filled, PendingCancel);
        broker.Untouched@Cancelled();
      } // else the order is over and its confirmation is on the way
    }

    /** The broker's doings do not touch the manager's own state. */
    twostate lemma Untouched()
      requires unchanged(this`positions) && unchanged(this`targets) && unchanged(this`live)
      requires unchanged(this`bySymbol) && unchanged(this`traded) && forall r :: r in old(Records()) ==> unchanged(r)
      ensures View() == old(View())
    {
      forall id | id in live ensures live[id].View() == old(live[id].View()) {
        assert live[id] in old(Records());
      }
    }

    /** A client id never used before, by this manager or at its broker. */
    method GenerateClientOrderId() returns (id: string)
      requires Valid()
      modifies this`drawn
      ensures Valid() && id !in live && id !in broker.live && |id| < drawn
    {
      id := seq(drawn, _ => 'u');
      drawn := drawn + 1;
    }

    lemma DrawnOne(ids: set<string>, id: string)
      requires Drawn(ids) && |id| < drawn
      ensures Drawn(ids + {id})
    {
    }

    /** Lines 164-174 and 188-197. */
    method PlaceOrder(symbol: string, side: Side, quantity: nat) returns (id: string)
      requires Valid()
      modifies this`drawn, this`live, this`bySymbol, broker
      ensures Valid() && id !in old(live) && id !in old(broker.live)
      ensures View() == Track(old(View()), id, symbol, side, quantity)
      ensures fresh(Records() - old(Records())) && fresh(broker.Orders() - old(broker.Orders()))
      ensures broker.View() == old(broker.View())[id := Simulated(symbol, quantity, side, 0, false)]
    {
      hide View, SimulatedBroker.View, Track, Separate, Drawn, SimulatedBroker.Valid;
      id := GenerateClientOrderId();
      DrawnOne(live.Keys, id);
      DrawnOne(broker.live.Keys, id);
      Untouched();
      TrackOrder(id, symbol, side, quantity);
      broker.Untouched();
      SendOrder(id, symbol, side, quantity);
    }

    /** Lines 173 and 196: hand a tracked order to the broker. */
    method SendOrder(id: string, symbol: string, side: Side, quantity: nat)
      requires broker.Valid() && broker.callback == confQ && id !in broker.live
      modifies broker
      ensures broker.Valid() && View() == old(View()) && broker.live.Keys == old(broker.live.Keys) + {id}
      ensures fresh(broker.Orders() - old(broker.Orders()))
      ensures broker.View() == old(broker.View())[id := Simulated(symbol, quantity, side, 0, false)]
    {
      hide View, SimulatedBroker.View;
      var brokerId := broker.SubmitOrder(id, symbol, quantity, side);
      Untouched();
    }

    /** Lines 166-171 and 190-195. */
    method TrackOrder(id: string, symbol: string, side: Side, quantity: nat)
      requires Separate() && id !in live
      modifies this`live, this`bySymbol
      ensures Separate() && live.Keys == old(live.Keys) + {id} && fresh(Records() - old(Records()))
      ensures View() == Track(old(View()), id, symbol, side, quantity)
    {
      hide View, Separate;
      var record := new TrackedOrder(symbol, quantity, side);
      Untouched();
      NotTracked(record);
      StoreRecord(id, record);
    }

    lemma NotTracked(record: TrackedOrder)
      requires !(record in Records())
      ensures forall x :: x in live ==> live[x] != record
    {
    }

    method StoreRecord(id: string, record: TrackedOrder)
      requires Separate() && id !in live && forall x :: x in live ==> live[x] != record
      modifies this`live, this`bySymbol
      ensures Separate() && live.Keys == old(live.Keys) + {id} && Records() <= old(Records()) + {record}
      ensures var pm := old(View());
              View() == pm.(live := pm.live[id := record.View()],
                            bySymbol := pm.bySymbol[record.symbol := IdsFor(pm, record.symbol) + [id]])
    {
      live := live[id := record];
      bySymbol := bySymbol[record.symbol := Get(bySymbol, record.symbol, []) + [id]];
      assert View().live == old(View()).live[id := record.View()];
    }

    /** Lines 153-174 and 177-197: cancel what works the other way, then place the difference. */
    method OrderDifference(symbol: string, side: Side, quantity: nat) returns (id: string)
      requires Valid()
      modifies this`drawn, this`live, this`bySymbol, Records(), broker, broker.Orders()
      ensures Valid() && id !in old(live)
      ensures fresh(Records() - old(Records())) && fresh(broker.Orders() - old(broker.Orders()))
      ensures View() == Track(CancelOpposing(old(View()), Get(old(bySymbol), symbol, []), side, old(broker.live.Keys)),
                              id, symbol, side, quantity)
      ensures broker.View() == CancelAtBroker(old(View()), Get(old(bySymbol), symbol, []), side, old(broker.View()))
                                 [id := Simulated(symbol, quantity, side, 0, false)]
    {
      hide View, Track, CancelOpposing, Separate, SimulatedBroker.View, CancelAtBroker;
      CancelOpposingOrders(symbol, side);
      id := PlaceOrder(symbol, side, quantity);
    }

    /** Lines 142-197 for one symbol. */
    method ReconcileSymbol(symbol: string) returns (id: string)
      requires Valid()
      modifies this`drawn, this`live, this`bySymbol, Records(), broker, broker.Orders()
      ensures Valid() && id !in old(live)
      ensures fresh(Records() - old(Records())) && fresh(broker.Orders() - old(broker.Orders()))
      ensures View() == Reconcile(old(View()), symbol, id, old(broker.live.Keys))
      ensures broker.View() == OrdersAfter(old(View()), symbol, id, old(broker.View()))
    {
      ViewIs();
      hide View, Track, CancelOpposing, WorkingPosition, Separate, SimulatedBroker.View, CancelAtBroker;
      ghost var pm, orders, accepts := View(), broker.View(), broker.live.Keys;
      var target := Get(targets, symbol, 0);
      var working := CalculateWorkingPosition(symbol);
      Untouched();
      broker.Untouched();
      var delta := target - working;
      assert delta == Delta(pm, symbol);
      ReconcileInParts(pm, symbol, accepts, orders);
      hide Reconcile, OrdersAfter, Delta, Abs, SideFor;
      if delta == 0 {
        id := GenerateClientOrderId();
        Untouched();
        broker.Untouched();
      } else if delta > 0 {
        id := OrderDifference(symbol, Buy, delta);
      } else {
        id := OrderDifference(symbol, Sell, -delta);
      }
    }

    /** `ReconcileSymbol`, from and to a state in which the two views of live orders agree. */
    method ReconcileNext(symbol: string) returns (id: string)
      requires Valid() && Agree(View())
      modifies this`drawn, this`live, this`bySymbol, Records(), broker, broker.Orders()
      ensures Valid() && Agree(View())
      ensures fresh(Records() - old(Records())) && fresh(broker.Orders() - old(broker.Orders()))
      ensures View() == Reconcile(old(View()), symbol, id, old(broker.View()).Keys)
      ensures broker.View() == OrdersAfter(old(View()), symbol, id, old(broker.View()))
      ensures forall s :: s == symbol || OnTarget(old(View()), s) ==> OnTarget(View(), s)
    {
      ViewIs();
      broker.ViewKeys();
      hide View, Agree, OnTarget, SimulatedBroker.View, Reconcile, OrdersAfter;
      ghost var before, accepts := View(), broker.live.Keys;
      id := ReconcileSymbol(symbol);
      ReconciledOne(before, symbol, id, accepts, View());
    }

    /** Lines 135-197: every symbol to check is reconciled once and ends on target; every other
        stays where it was. `jobs` tells the order and the ids generated. */
    method ReconcilePositions(symbols: set<string>) returns (ghost jobs: seq<(string, string)>)
      requires Valid() && Agree(View())
      modifies this`drawn, this`live, this`bySymbol, Records(), broker, broker.Orders()
      ensures Valid() && Agree(View())
      ensures (View(), broker.View()) == ReconcileBoth(old(View()), old(broker.View()), jobs) && JobsFor(jobs, symbols)
      ensures forall s :: s in symbols || OnTarget(old(View()), s) ==> OnTarget(View(), s)
    {
      hide View, Agree, OnTarget, SimulatedBroker.View, Reconcile, OrdersAfter, ReconcileBoth, JobsFor;
      hide Valid;
      var rest := symbols;
      jobs := [];
      assert symbols - rest == {};
      NoJobs(View(), broker.View());
      while rest != {}
        invariant Valid() && Agree(View()) && rest <= symbols
        invariant fresh(Records() - old(Records())) && fresh(broker.Orders() - old(broker.Orders()))
        invariant (View(), broker.View()) == ReconcileBoth(old(View()), old(broker.View()), jobs)
        invariant JobsFor(jobs, symbols - rest)
        invariant forall s :: s in symbols - rest || OnTarget(old(View()), s) ==> OnTarget(View(), s)
        decreases |rest|
      {
        var symbol :| symbol in rest;
        var id := ReconcileNext(symbol);
        OneMoreJob(old(View()), old(broker.View()), jobs, (symbol, id));
        JobAdded(jobs, symbols, rest, (symbol, id));
        jobs := jobs + [(symbol, id)];
        rest := rest - {symbol};
      }
      assert symbols - {} == symbols;
    }

    /** Lines 206-209: drain both queues; only the symbols they named can be off target then. */
    method Drain() returns (symbols: set<string>)
      requires Valid() && Agree(View()) && AllMatch(View(), confQ.items)
      requires forall s :: OnTarget(View(), s)
      modifies this, Records(), confQ
      ensures Valid() && Agree(View()) && Records() <= old(Records()) && confQ.items == [] && targetQ == []
      ensures View() == RetargetAll(ConfirmAll(old(View()), old(confQ.items)), old(targetQ))
      ensures forall s :: s in symbols <==> Touched(old(confQ.items), [], s) || Touched([], old(targetQ), s)
      ensures forall s :: s !in symbols ==> OnTarget(View(), s)
    {
      ghost var pm, confs, updates := View(), confQ.items, targetQ;
      hide View, Agree, OnTarget, Touched, AllMatch;
      var fromTrades := ProcessTradeConfirmations();
      var fromTargets := ProcessTargetUpdates();
      DrainedOnTarget(pm, confs, updates, View());
      symbols := fromTrades + fromTargets;
    }

    /** The jobs are exactly the symbols that the queues named, each once. */
    ghost predicate JobsTouched(jobs: seq<(string, string)>, confs: seq<Confirmation>, updates: seq<(string, int)>) {
      exists symbols ::
        && JobsFor(jobs, symbols)
        && forall s :: s in symbols <==> Touched(confs, [], s) || Touched([], updates, s)
    }

    /** One round of the run loop (lines 206-218): both queues are drained into the state, exactly
        the symbols they named are reconciled, and again every symbol's working position is on
        target. */
    method RunIteration() returns (ghost jobs: seq<(string, string)>)
      requires Valid() && Agree(View()) && AllMatch(View(), confQ.items)
      requires forall s :: OnTarget(View(), s)
      modifies this, Records(), broker, broker.Orders(), confQ
      ensures Valid() && Agree(View()) && confQ.items == [] && targetQ == []
      ensures (View(), broker.View())
              == ReconcileBoth(RetargetAll(ConfirmAll(old(View()), old(confQ.items)), old(targetQ)),
                               old(broker.View()), jobs)
      ensures JobsTouched(jobs, old(confQ.items), old(targetQ))
      ensures forall s :: OnTarget(View(), s)
    {
      hide View, Agree, OnTarget, Touched, AllMatch, SimulatedBroker.View, ReconcileBoth, JobsFor;
      var symbols := Drain();
      broker.Untouched();
      NoJobs(View(), broker.View());
      jobs := [];
      if symbols != {} {
        jobs := ReconcilePositions(symbols);
      }
      assert JobsFor(jobs, symbols);
    }
  }

  /** Reconciling a symbol, by the sign of what is missing. */
  lemma ReconcileInParts(pm: Manager, symbol: string, accepts: set<string>, orders: map<string, Simulated>)
    ensures var delta, ids := Delta(pm, symbol), IdsFor(pm, symbol);
            forall id ::
              if delta == 0 then
                Reconcile(pm, symbol, id, accepts) == pm && OrdersAfter(pm, symbol, id, orders) == orders
              else
                var side, quantity := if delta > 0 then Buy else Sell, if delta > 0 then delta else -delta;
                && Reconcile(pm, symbol, id, accepts)
                   == Track(CancelOpposing(pm, ids, side, accepts), id, symbol, side, quantity)
                && OrdersAfter(pm, symbol, id, orders)
                   == CancelAtBroker(pm, ids, side, orders)[id := Simulated(symbol, quantity, side, 0, false)]
  {
  }

  lemma NoJobs(pm: Manager, orders: map<string, Simulated>)
    ensures ReconcileBoth(pm, orders, []) == (pm, orders) && JobsFor([], {})
  {
  }

  lemma JobAdded(jobs: seq<(string, string)>, symbols: set<string>, rest: set<string>, job: (string, string))
    requires JobsFor(jobs, symbols - rest) && job.0 in rest && rest <= symbols
    ensures JobsFor(jobs + [job], symbols - (rest - {job.0}))
  {
    assert symbols - (rest - {job.0}) == symbols - rest + {job.0};
  }

  lemma ReconciledOne(pm: Manager, symbol: string, id: string, accepts: set<string>, pm': Manager)
    requires Agree(pm) && id !in pm.live && pm' == Reconcile(pm, symbol, id, accepts)
    ensures Agree(pm') && forall s :: s == symbol || OnTarget(pm, s) ==> OnTarget(pm', s)
  {
    ReconcileReachesTarget(pm, symbol, id, accepts, symbol);
    forall s | s == symbol || OnTarget(pm, s) ensures OnTarget(pm', s) {
      ReconcileReachesTarget(pm, symbol, id, accepts, s);
    }
  }

  /** After draining, only the symbols the queues named can be off target. */
  lemma DrainedOnTarget(pm: Manager, confs: seq<Confirmation>, updates: seq<(string, int)>, pm': Manager)
    requires Agree(pm) && AllMatch(pm, confs) && forall s :: OnTarget(pm, s)
    requires pm' == RetargetAll(ConfirmAll(pm, confs), updates)
    ensures Agree(pm')
    ensures forall s :: !Touched(confs, [], s) && !Touched([], updates, s) ==> OnTarget(pm', s)
  {
    ConfirmAllMoves(pm, confs);
    RetargetAllMoves(ConfirmAll(pm, confs), updates);
    forall s | !Touched(confs, [], s) && !Touched([], updates, s) ensures OnTarget(pm', s) {
      assert OnTarget(pm, s);
      assert OnTarget(ConfirmAll(pm, confs), s);
    }
  }

  lemma NothingTouched()
    ensures forall s :: !Touched([], [], s)
  {
  }

  lemma TouchedMore(queue: seq<Confirmation>, n: nat)
    requires n < |queue|
    ensures forall s :: Touched(queue[..n + 1], [], s) <==> Touched(queue[..n], [], s) || s == queue[n].symbol
  {
    forall s ensures Touched(queue[..n + 1], [], s) <==> Touched(queue[..n], [], s) || s == queue[n].symbol {
      if Touched(queue[..n], [], s) {
        var i :| 0 <= i < n && queue[..n][i].symbol == s;
        assert queue[..n + 1][i].symbol == s;
      }
      assert queue[..n + 1][n] == queue[n];
      if Touched(queue[..n + 1], [], s) {
        var i :| 0 <= i < n + 1 && queue[..n + 1][i].symbol == s;
        assert i < n ==> queue[..n][i].symbol == s;
      }
    }
  }

  lemma RetouchedMore(queue: seq<(string, int)>, n: nat)
    requires n < |queue|
    ensures forall s :: Touched([], queue[..n + 1], s) <==> Touched([], queue[..n], s) || s == queue[n].0
  {
    forall s ensures Touched([], queue[..n + 1], s) <==> Touched([], queue[..n], s) || s == queue[n].0 {
      if Touched([], queue[..n], s) {
        var i :| 0 <= i < n && queue[..n][i].0 == s;
        assert queue[..n + 1][i].0 == s;
      }
      assert queue[..n + 1][n] == queue[n];
      if Touched([], queue[..n + 1], s) {
        var i :| 0 <= i < n + 1 && queue[..n + 1][i].0 == s;
        assert i < n ==> queue[..n][i].0 == s;
      }
    }
  }
}
