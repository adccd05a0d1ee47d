/** What the position manager keeps: its two views of the live orders agree, and reconciling a
    symbol puts its working position on target without touching any other symbol. */
module PositionLaws {
  import opened Types
  import opened Confirmations
  import opened PositionModel

  ghost predicate NoRepeats(ids: seq<string>) { forall i, j :: 0 <= i < j < |ids| ==> ids[i] != ids[j] }

  /** `live_orders` and `live_orders_by_symbol` list the same orders: each live order once, under
      its own symbol, and no symbol with an empty list; no live order is finished. */
  ghost predicate Agree(pm: Manager) {
    && (forall s :: s in pm.bySymbol ==> ListOk(pm, s))
    && (forall id :: id in pm.live ==> LiveOk(pm, id))
  }

  ghost predicate ListOk(pm: Manager, symbol: string)
    requires symbol in pm.bySymbol
  {
    var ids := pm.bySymbol[symbol];
    && ids != [] && NoRepeats(ids)
    && (forall i :: 0 <= i < |ids| ==> ids[i] in pm.live && pm.live[ids[i]].symbol == symbol)
  }

  ghost predicate LiveOk(pm: Manager, id: string)
    requires id in pm.live
  {
    var o := pm.live[id];
    && o.symbol in pm.bySymbol && id in pm.bySymbol[o.symbol]
    && !o.status.Terminal() && 0 < o.quantity
  }

  ghost predicate OnTarget(pm: Manager, symbol: string) { WorkingPosition(pm, symbol) == Target(pm, symbol) }

  // ---------- Sums over the ids of one symbol ----------

  lemma {:induction false} PendingSame(a: map<string, LiveOrder>, b: map<string, LiveOrder>, ids: seq<string>)
    requires forall i :: 0 <= i < |ids| ==> (ids[i] in a <==> ids[i] in b)
                                            && (ids[i] in a ==> Pending(a[ids[i]]) == Pending(b[ids[i]]))
    ensures PendingOf(a, ids) == PendingOf(b, ids)
  {
    if ids != [] {
      PendingSame(a, b, ids[1..]);
    }
  }

  /** Changing one listed order changes the sum by just that order. */
  lemma {:induction false} PendingChange(a: map<string, LiveOrder>, b: map<string, LiveOrder>, ids: seq<string>,
                                         id: string)
    requires NoRepeats(ids) && id in ids && id in a && id in b
    requires forall x :: x != id ==> (x in a <==> x in b) && (x in a ==> a[x] == b[x])
    ensures PendingOf(b, ids) == PendingOf(a, ids) - Pending(a[id]) + Pending(b[id])
  {
    if ids[0] == id {
      PendingSame(a, b, ids[1..]);
    } else {
      PendingChange(a, b, ids[1..], id);
    }
  }

  lemma {:induction false} PendingRemove(live: map<string, LiveOrder>, ids: seq<string>, id: string)
    requires NoRepeats(ids) && id in ids && id in live
    ensures PendingOf(live - {id}, RemoveFirst(ids, id)) == PendingOf(live, ids) - Pending(live[id])
  {
    if ids[0] == id {
      PendingSame(live, live - {id}, ids[1..]);
    } else {
      PendingRemove(live, ids[1..], id);
    }
  }

  lemma {:induction false} PendingAppend(live: map<string, LiveOrder>, ids: seq<string>, id: string, o: LiveOrder)
    requires id !in ids
    ensures PendingOf(live[id := o], ids + [id]) == PendingOf(live, ids) + Pending(o)
  {
    if ids == [] {
      assert [] + [id] == [id] && [id][1..] == [];
    } else {
      assert (ids + [id])[1..] == ids[1..] + [id];
      PendingAppend(live, ids[1..], id, o);
    }
  }

  lemma {:induction false} InRemoveFirst(ids: seq<string>, id: string, x: string)
    requires NoRepeats(ids) && id in ids
    ensures x in RemoveFirst(ids, id) <==> x in ids && x != id
  {
    assert x in ids <==> x == ids[0] || x in ids[1..];
    if ids[0] != id {
      InRemoveFirst(ids[1..], id, x);
    } else if x in ids[1..] {
      var i :| 0 <= i < |ids[1..]| && ids[1..][i] == x;
      assert ids[i + 1] == x;
    }
  }

  lemma {:induction false} RemoveFirstAt(ids: seq<string>, id: string)
    requires NoRepeats(ids) && id in ids
    ensures NoRepeats(RemoveFirst(ids, id))
    ensures forall x :: x in RemoveFirst(ids, id) <==> x in ids && x != id
  {
    forall x ensures x in RemoveFirst(ids, id) <==> x in ids && x != id {
      InRemoveFirst(ids, id, x);
    }
    if ids[0] != id {
      RemoveFirstAt(ids[1..], id);
      forall i | 0 <= i < |RemoveFirst(ids[1..], id)| ensures RemoveFirst(ids[1..], id)[i] != ids[0] {
        InRemoveFirst(ids[1..], id, RemoveFirst(ids[1..], id)[i]);
      }
    }
  }

  // ---------- Confirmations ----------

  /** A confirmation that names a live order names its symbol too. */
  predicate Matches(pm: Manager, c: Confirmation) { c.clientId in pm.live ==> pm.live[c.clientId].symbol == c.symbol }

  /** How much a confirmation moves the working position of its symbol: its fill, and what it
      takes off the order's pending quantity. */
  function Shift(pm: Manager, c: Confirmation): int {
    if c.clientId !in pm.live then c.Signed()
    else
      var o := pm.live[c.clientId];
      var o' := o.(filled := o.filled + c.filled, status := c.status);
      c.Signed() - Pending(o) + Pending(o')
  }

  lemma ConfirmKeepsLists(pm: Manager, c: Confirmation, s: string)
    requires Agree(pm) && Matches(pm, c) && s in Confirm(pm, c).bySymbol
    ensures ListOk(Confirm(pm, c), s)
  {
    var pm' := Confirm(pm, c);
    assert ListOk(pm, s);
    if c.clientId in pm.live {
      assert LiveOk(pm, c.clientId) && ListOk(pm, c.symbol);
      RemoveFirstAt(pm.bySymbol[c.symbol], c.clientId);
      var ids := pm'.bySymbol[s];
      forall i | 0 <= i < |ids| ensures ids[i] in pm'.live && pm'.live[ids[i]].symbol == s {
        assert ids[i] in ids;
        assert ids[i] in pm.bySymbol[s];
      }
    }
  }

  lemma ConfirmKeepsLive(pm: Manager, c: Confirmation, id: string)
    requires Agree(pm) && Matches(pm, c) && id in Confirm(pm, c).live
    ensures LiveOk(Confirm(pm, c), id)
  {
    assert LiveOk(pm, id);
    if c.clientId in pm.live {
      assert LiveOk(pm, c.clientId) && ListOk(pm, c.symbol);
      RemoveFirstAt(pm.bySymbol[c.symbol], c.clientId);
    }
  }

  lemma ConfirmKeepsAgree(pm: Manager, c: Confirmation)
    requires Agree(pm) && Matches(pm, c)
    ensures Agree(Confirm(pm, c))
  {
    forall s | s in Confirm(pm, c).bySymbol ensures ListOk(Confirm(pm, c), s) {
      ConfirmKeepsLists(pm, c, s);
    }
    forall id | id in Confirm(pm, c).live ensures LiveOk(Confirm(pm, c), id) {
      ConfirmKeepsLive(pm, c, id);
    }
  }

  lemma OtherSymbolStays(pm: Manager, c: Confirmation, symbol: string)
    requires Agree(pm) && Matches(pm, c) && symbol != c.symbol
    ensures WorkingPosition(Confirm(pm, c), symbol) == WorkingPosition(pm, symbol)
  {
    assert symbol in pm.bySymbol ==> ListOk(pm, symbol);
    PendingSame(pm.live, Confirm(pm, c).live, IdsFor(pm, symbol));
  }

  lemma OwnSymbolMoves(pm: Manager, c: Confirmation)
    requires Agree(pm) && Matches(pm, c)
    ensures WorkingPosition(Confirm(pm, c), c.symbol) == WorkingPosition(pm, c.symbol) + Shift(pm, c)
  {
    if c.clientId in pm.live {
      assert LiveOk(pm, c.clientId) && ListOk(pm, c.symbol);
      hide Agree, ListOk, LiveOk;
      var ids := pm.bySymbol[c.symbol];
      if c.status.Terminal() {
        RemoveFirstAt(ids, c.clientId);
        PendingRemove(pm.live, ids, c.clientId);
      } else {
        PendingChange(pm.live, Confirm(pm, c).live, ids, c.clientId);
      }
    }
  }

  /** A confirmation moves the working position of its own symbol only. */
  lemma ConfirmMovesWorking(pm: Manager, c: Confirmation, symbol: string)
    requires Agree(pm) && Matches(pm, c)
    ensures WorkingPosition(Confirm(pm, c), symbol)
            == WorkingPosition(pm, symbol) + (if symbol == c.symbol then Shift(pm, c) else 0)
    ensures Target(Confirm(pm, c), symbol) == Target(pm, symbol)
  {
    if symbol == c.symbol {
      OwnSymbolMoves(pm, c);
    } else {
      OtherSymbolStays(pm, c, symbol);
    }
  }

  lemma ConfirmAddsUp(pm: Manager, c: Confirmation, symbol: string)
    ensures var pm' := Confirm(pm, c);
            && Position(pm', symbol) == Position(pm, symbol) + (if c.symbol == symbol then c.Signed() else 0)
            && Get(pm'.traded, symbol, 0) == Get(pm.traded, symbol, 0) + (if c.symbol == symbol then c.filled else 0)
  {
  }

  /** Draining confirmations adds their net quantity to the position and their gross quantity to
      the traded total, known order or not. */
  lemma {:induction false} ConfirmAllAddsUp(pm: Manager, confs: seq<Confirmation>, symbol: string)
    ensures var pm' := ConfirmAll(pm, confs);
            && Position(pm', symbol) == Position(pm, symbol) + NetFilled(confs, symbol)
            && Get(pm'.traded, symbol, 0) == Get(pm.traded, symbol, 0) + GrossFilled(confs, symbol)
    decreases |confs|
  {
    if confs != [] {
      ConfirmAddsUp(pm, confs[0], symbol);
      hide Confirm, Position, Get;
      ConfirmAllAddsUp(Confirm(pm, confs[0]), confs[1..], symbol);
    }
  }

  lemma {:induction false} OneMoreConfirmed(pm: Manager, confs: seq<Confirmation>, c: Confirmation)
    ensures ConfirmAll(pm, confs + [c]) == Confirm(ConfirmAll(pm, confs), c)
    decreases |confs|
  {
    if confs == [] {
      assert [] + [c] == [c] && [c][1..] == [];
    } else {
      assert (confs + [c])[1..] == confs[1..] + [c];
      hide Confirm;
      OneMoreConfirmed(Confirm(pm, confs[0]), confs[1..], c);
    }
  }

  lemma ConfirmRecords(pm: Manager, c: Confirmation, id: string)
    ensures var pm' := Confirm(pm, c);
            && pm'.targets == pm.targets
            && (id in pm'.live <==>
                  id in pm.live && (c.clientId == id ==> c.status !in {Filled, Cancelled, Rejected}))
            && (id in pm'.live ==>
                  pm'.live[id] == if c.clientId != id then pm.live[id]
                                  else pm.live[id].(filled := pm.live[id].filled + c.filled, status := c.status))
  {
  }

  ghost predicate NoneEnds(confs: seq<Confirmation>) {
    forall i :: 0 <= i < |confs| ==> confs[i].status !in {Filled, Cancelled, Rejected}
  }

  lemma NoneEndsYet()
    ensures NoneEnds([])
  {
  }

  lemma NoneEndsMore(confs: seq<Confirmation>, c: Confirmation)
    ensures NoneEnds(confs + [c]) <==> NoneEnds(confs) && c.status !in {Filled, Cancelled, Rejected}
  {
    assert (confs + [c])[|confs|] == c;
    assert forall i :: 0 <= i < |confs| ==> (confs + [c])[i] == confs[i];
  }

  /** What draining leaves of each tracked order, known from the confirmations of its own id alone:
      it is tracked until one of them is terminal, its fills are counted up, and its status is that
      of the last of them. */
  lemma {:induction false} OrdersFollowConfirmations(pm: Manager, confs: seq<Confirmation>, id: string)
    ensures var pm', own := ConfirmAll(pm, confs), Of(confs, id);
            && pm'.targets == pm.targets
            && (id in pm'.live <==> id in pm.live && NoneEnds(own))
            && (id in pm'.live ==>
                  pm'.live[id] == pm.live[id].(filled := pm.live[id].filled + FilledTotal(own),
                                               status := if own == [] then pm.live[id].status
                                                         else own[|own| - 1].status))
    decreases |confs|
  {
    hide Confirm, NoneEnds;
    if confs == [] {
      NoneEndsYet();
    } else {
      var front, c := confs[..|confs| - 1], confs[|confs| - 1];
      assert confs == front + [c];
      OrdersFollowConfirmations(pm, front, id);
      OneMoreConfirmed(pm, front, c);
      ConfirmRecords(ConfirmAll(pm, front), c, id);
      OneMore(front, c);
      OneMore(Of(front, id), c);
      NoneEndsMore(Of(front, id), c);
      assert Of(confs, id) == if c.clientId == id then Of(front, id) + [c] else Of(front, id);
    }
  }

  // ---------- Targets ----------

  lemma RetargetMoves(pm: Manager, update: (string, int), symbol: string)
    ensures var pm' := Retarget(pm, update);
            && (Agree(pm) ==> Agree(pm')) && WorkingPosition(pm', symbol) == WorkingPosition(pm, symbol)
            && Target(pm', symbol) == (if symbol == update.0 then update.1 else Target(pm, symbol))
  {
    var pm' := Retarget(pm, update);
    if Agree(pm) {
      forall s | s in pm'.bySymbol ensures ListOk(pm', s) {
        assert ListOk(pm, s);
      }
      forall id | id in pm'.live ensures LiveOk(pm', id) {
        assert LiveOk(pm, id);
      }
    }
  }

  /** The last amount queued for a symbol, `before` when there is none. */
  function LastQueued(updates: seq<(string, int)>, symbol: string, before: int): int {
    if updates == [] then before
    else if updates[|updates| - 1].0 == symbol then updates[|updates| - 1].1
    else LastQueued(updates[..|updates| - 1], symbol, before)
  }

  lemma {:induction false} QueuedFirst(updates: seq<(string, int)>, symbol: string, before: int)
    requires updates != []
    ensures LastQueued(updates, symbol, before)
            == LastQueued(updates[1..], symbol, if updates[0].0 == symbol then updates[0].1 else before)
  {
    if |updates| > 1 {
      var front := updates[..|updates| - 1];
      assert updates[1..][..|updates| - 2] == front[1..] && updates[1..][|updates| - 2] == updates[|updates| - 1];
      QueuedFirst(front, symbol, before);
    }
  }

  /** After draining the updates the last one of a symbol is its target, and only targets have
      changed. */
  lemma {:induction false} LastUpdateWins(pm: Manager, updates: seq<(string, int)>, symbol: string)
    ensures Target(RetargetAll(pm, updates), symbol) == LastQueued(updates, symbol, Target(pm, symbol))
    ensures RetargetAll(pm, updates) == pm.(targets := RetargetAll(pm, updates).targets)
    decreases |updates|
  {
    if updates != [] {
      QueuedFirst(updates, symbol, Target(pm, symbol));
      LastUpdateWins(Retarget(pm, updates[0]), updates[1..], symbol);
    }
  }

  lemma OneMoreUpdate(pm: Manager, updates: seq<(string, int)>, update: (string, int), symbol: string)
    ensures Target(RetargetAll(pm, updates + [update]), symbol)
            == if symbol == update.0 then update.1 else Target(RetargetAll(pm, updates), symbol)
  {
    LastUpdateWins(pm, updates, symbol);
    LastUpdateWins(pm, updates + [update], symbol);
    assert (updates + [update])[..|updates|] == updates;
  }

  // ---------- Reconciliation ----------

  /** `pm'` differs from `pm` only in that some live orders are now pending cancellation. */
  ghost predicate SomeMarked(pm: Manager, pm': Manager) {
    && pm' == pm.(live := pm'.live) && pm'.live.Keys == pm.live.Keys
    && forall id :: id in pm.live ==>
         pm'.live[id] == pm.live[id] || pm'.live[id] == pm.live[id].(status := PendingCancel)
  }

  lemma MarkingKeeps(pm: Manager, pm': Manager)
    requires Agree(pm) && SomeMarked(pm, pm')
    ensures Agree(pm') && forall symbol :: WorkingPosition(pm', symbol) == WorkingPosition(pm, symbol)
  {
    forall s | s in pm'.bySymbol ensures ListOk(pm', s) {
      assert ListOk(pm, s);
    }
    forall id | id in pm'.live ensures LiveOk(pm', id) && Pending(pm'.live[id]) == Pending(pm.live[id]) {
      assert LiveOk(pm, id);
    }
    forall symbol ensures WorkingPosition(pm', symbol) == WorkingPosition(pm, symbol) {
      PendingSame(pm.live, pm'.live, IdsFor(pm, symbol));
    }
  }

  lemma {:induction false} CancelOpposingMarks(pm: Manager, ids: seq<string>, side: Side, accepts: set<string>)
    ensures SomeMarked(pm, CancelOpposing(pm, ids, side, accepts))
    decreases |ids|
  {
    if ids != [] {
      var pm1 := if Opposes(pm, ids[0], side) && ids[0] in accepts then MarkPending(pm, ids[0]) else pm;
      CancelOpposingMarks(pm1, ids[1..], side, accepts);
    }
  }

  lemma {:induction false} MarksExactly(pm: Manager, ids: seq<string>, side: Side, accepts: set<string>, id: string)
    requires NoRepeats(ids) && id in pm.live
    ensures var pm' := CancelOpposing(pm, ids, side, accepts);
            && id in pm'.live
            && pm'.live[id] == if id in ids && Opposes(pm, id, side) && id in accepts
                               then pm.live[id].(status := PendingCancel) else pm.live[id]
    decreases |ids|
  {
    if ids != [] {
      assert ids == [ids[0]] + ids[1..];
      var pm1 := if Opposes(pm, ids[0], side) && ids[0] in accepts then MarkPending(pm, ids[0]) else pm;
      MarksExactly(pm1, ids[1..], side, accepts, id);
    }
  }

  lemma {:induction false} FlagsExactly(pm: Manager, ids: seq<string>, side: Side,
                                            orders: map<string, Simulated>, id: string)
    requires NoRepeats(ids)
    ensures var orders' := CancelAtBroker(pm, ids, side, orders);
            && orders'.Keys == orders.Keys
            && (id in orders ==>
                  orders'[id] == if id in ids && Opposes(pm, id, side)
                                 then orders[id].(cancelling := true) else orders[id])
    decreases |ids|
  {
    if ids != [] {
      var first := ids[0];
      assert ids == [first] + ids[1..];
      if Opposes(pm, first, side) && first in orders {
        var orders1 := orders[first := orders[first].(cancelling := true)];
        assert orders1.Keys == orders.Keys;
        assert id != first ==> Opposes(MarkPending(pm, first), id, side) == Opposes(pm, id, side);
        FlagsExactly(MarkPending(pm, first), ids[1..], side, orders1, id);
      } else {
        FlagsExactly(pm, ids[1..], side, orders, id);
      }
    }
  }

  /** Exactly the opposing orders the broker still knows are cancelled: they are flagged there
      and marked here, and nothing else changes on either side. */
  lemma CancelsExactly(pm: Manager, symbol: string, side: Side, orders: map<string, Simulated>, id: string)
    requires Agree(pm)
    ensures var ids := IdsFor(pm, symbol);
            var pm', orders' := CancelOpposing(pm, ids, side, orders.Keys), CancelAtBroker(pm, ids, side, orders);
            var hit := id in ids && Opposes(pm, id, side) && id in orders;
            && (id in pm.live ==>
                  && id in pm'.live
                  && pm'.live[id] == (if hit then pm.live[id].(status := PendingCancel) else pm.live[id]))
            && orders'.Keys == orders.Keys
            && (id in orders ==> orders'[id] == (if hit then orders[id].(cancelling := true) else orders[id]))
  {
    assert symbol in pm.bySymbol ==> ListOk(pm, symbol);
    if id in pm.live {
      MarksExactly(pm, IdsFor(pm, symbol), side, orders.Keys, id);
    }
    FlagsExactly(pm, IdsFor(pm, symbol), side, orders, id);
  }

  lemma TrackKeeps(pm: Manager, id: string, symbol: string, side: Side, quantity: nat, other: string)
    requires Agree(pm) && id !in pm.live && 0 < quantity
    ensures var pm' := Track(pm, id, symbol, side, quantity);
            && Agree(pm')
            && WorkingPosition(pm', other)
               == WorkingPosition(pm, other) + (if other == symbol then quantity * side.Sign() else 0)
            && Target(pm', other) == Target(pm, other)
  {
    var pm' := Track(pm, id, symbol, side, quantity);
    assert symbol in pm.bySymbol ==> ListOk(pm, symbol);
    forall s | s in pm'.bySymbol ensures ListOk(pm', s) {
      assert s in pm.bySymbol ==> ListOk(pm, s);
    }
    forall x | x in pm'.live ensures LiveOk(pm', x) {
      assert x != id ==> LiveOk(pm, x);
      assert x == id ==> pm'.bySymbol[symbol][|IdsFor(pm, symbol)|] == id;
    }
    if other == symbol {
      PendingAppend(pm.live, IdsFor(pm, symbol), id, pm'.live[id]);
    } else {
      assert other in pm.bySymbol ==> ListOk(pm, other);
      PendingSame(pm.live, pm'.live, IdsFor(pm, other));
    }
  }

  /** Reconciling a symbol puts its working position on target, whatever cancel requests the
      broker accepts, and moves no other symbol. */
  lemma ReconcileReachesTarget(pm: Manager, symbol: string, id: string, accepts: set<string>, other: string)
    requires Agree(pm) && id !in pm.live
    ensures var pm' := Reconcile(pm, symbol, id, accepts);
            && Agree(pm') && OnTarget(pm', symbol)
            && (other != symbol ==> WorkingPosition(pm', other) == WorkingPosition(pm, other))
            && Target(pm', other) == Target(pm, other) && Position(pm', other) == Position(pm, other)
  {
    var delta := Delta(pm, symbol);
    if delta != 0 {
      var side := SideFor(delta);
      var marked := CancelOpposing(pm, IdsFor(pm, symbol), side, accepts);
      CancelOpposingMarks(pm, IdsFor(pm, symbol), side, accepts);
      MarkingKeeps(pm, marked);
      TrackKeeps(marked, id, symbol, side, Abs(delta), symbol);
      TrackKeeps(marked, id, symbol, side, Abs(delta), other);
    }
  }

  /** Is this status one of an order that may be asked to cancel? */
  predicate CanBeCancelled(status: Status) {
    status != Filled && status != Cancelled && status != Rejected && status != PendingCancel
  }

  /** What reconciling a symbol does to an order that was there before. With something to buy the
      orders to sell are cancelled, with something to sell those to buy: they are flagged at the
      broker and marked here, when the broker knows them and no cancel is pending yet. Every other
      order, of that symbol or another, stays as it was on both sides. */
  lemma CancelsTheOtherSide(pm: Manager, symbol: string, id: string, orders: map<string, Simulated>, x: string)
    requires Agree(pm) && id !in pm.live && id !in orders && x != id
    ensures var pm', orders' := Reconcile(pm, symbol, id, orders.Keys), OrdersAfter(pm, symbol, id, orders);
            var delta := Target(pm, symbol) - WorkingPosition(pm, symbol);
            var hit :=
              && x in pm.live && x in orders && pm.live[x].symbol == symbol && CanBeCancelled(pm.live[x].status)
              && if delta > 0 then pm.live[x].side == Sell else delta < 0 && pm.live[x].side == Buy;
            && (x in pm'.live <==> x in pm.live) && (x in orders' <==> x in orders)
            && (x in pm.live ==> pm'.live[x] == if hit then pm.live[x].(status := PendingCancel) else pm.live[x])
            && (x in orders ==>
                  orders'[x] == if hit then orders[x].(cancelling := true) else orders[x])
  {
    var delta := Delta(pm, symbol);
    if delta != 0 {
      CancelsExactly(pm, symbol, SideFor(delta), orders, x);
      CancelOpposingMarks(pm, IdsFor(pm, symbol), SideFor(delta), orders.Keys);
      if x in pm.live {
        ListedUnder(pm, symbol, x);
      }
    }
  }

  lemma {:induction false} FlagsKeys(pm: Manager, ids: seq<string>, side: Side, orders: map<string, Simulated>)
    ensures CancelAtBroker(pm, ids, side, orders).Keys == orders.Keys
    decreases |ids|
  {
    if ids != [] {
      if Opposes(pm, ids[0], side) && ids[0] in orders {
        var orders1 := orders[ids[0] := orders[ids[0]].(cancelling := true)];
        assert orders1.Keys == orders.Keys;
        FlagsKeys(MarkPending(pm, ids[0]), ids[1..], side, orders1);
      } else {
        FlagsKeys(pm, ids[1..], side, orders);
      }
    }
  }

  /** Live orders are listed under their own symbol. */
  lemma ListedUnder(pm: Manager, symbol: string, x: string)
    requires Agree(pm) && x in pm.live
    ensures x in IdsFor(pm, symbol) <==> pm.live[x].symbol == symbol
  {
    assert LiveOk(pm, x);
    assert symbol in pm.bySymbol ==> ListOk(pm, symbol);
  }

  /** What it adds: one new order on each side, for exactly the missing quantity and in the direction
      of it, and nothing when nothing is missing. */
  lemma OrdersTheDifference(pm: Manager, symbol: string, id: string, orders: map<string, Simulated>)
    requires Agree(pm) && id !in pm.live && id !in orders
    ensures var pm', orders' := Reconcile(pm, symbol, id, orders.Keys), OrdersAfter(pm, symbol, id, orders);
            var delta := Target(pm, symbol) - WorkingPosition(pm, symbol);
            if delta == 0 then pm' == pm && orders' == orders
            else
              var side, quantity := if delta > 0 then Buy else Sell, if delta > 0 then delta else -delta;
              && pm'.live.Keys == pm.live.Keys + {id} && orders'.Keys == orders.Keys + {id}
              && pm'.live[id] == LiveOrder(symbol, quantity, side, PendingNew, 0)
              && orders'[id] == Simulated(symbol, quantity, side, 0, false)
              && pm'.bySymbol
                 == pm.bySymbol[symbol := (if symbol in pm.bySymbol then pm.bySymbol[symbol] else []) + [id]]
              && pm'.positions == pm.positions && pm'.targets == pm.targets && pm'.traded == pm.traded
  {
    var delta := Delta(pm, symbol);
    if delta != 0 {
      CancelOpposingMarks(pm, IdsFor(pm, symbol), SideFor(delta), orders.Keys);
      FlagsKeys(pm, IdsFor(pm, symbol), SideFor(delta), orders);
    }
  }

  // ---------- One iteration of the run loop ----------

  /** One symbol to reconcile, with the new client id and the cancels the broker accepts. */
  datatype Job = Job(symbol: string, id: string, accepts: set<string>)

  function ReconcileAll(pm: Manager, jobs: seq<Job>): Manager
    decreases |jobs|
  {
    if jobs == [] then pm
    else ReconcileAll(Reconcile(pm, jobs[0].symbol, jobs[0].id, jobs[0].accepts), jobs[1..])
  }

  function Iterate(pm: Manager, confs: seq<Confirmation>, updates: seq<(string, int)>, jobs: seq<Job>): Manager {
    ReconcileAll(RetargetAll(ConfirmAll(pm, confs), updates), jobs)
  }

  lemma {:induction false} OneMoreJob(pm: Manager, orders: map<string, Simulated>,
                                          jobs: seq<(string, string)>, job: (string, string))
    ensures var (pm1, orders1) := ReconcileBoth(pm, orders, jobs);
            ReconcileBoth(pm, orders, jobs + [job])
            == (Reconcile(pm1, job.0, job.1, orders1.Keys), OrdersAfter(pm1, job.0, job.1, orders1))
    decreases |jobs|
  {
    if jobs == [] {
      assert [] + [job] == [job] && [job][1..] == [];
    } else {
      assert (jobs + [job])[1..] == jobs[1..] + [job];
      var (symbol, id) := jobs[0];
      hide Reconcile, OrdersAfter;
      OneMoreJob(Reconcile(pm, symbol, id, orders.Keys), OrdersAfter(pm, symbol, id, orders), jobs[1..], job);
    }
  }

  /** Exactly these symbols, each once. */
  ghost predicate JobsFor(jobs: seq<(string, string)>, symbols: set<string>) {
    && (forall i, j :: 0 <= i < j < |jobs| ==> jobs[i].0 != jobs[j].0)
    && (forall i :: 0 <= i < |jobs| ==> jobs[i].0 in symbols)
    && |jobs| == |symbols|
  }

  ghost predicate AllMatch(pm: Manager, confs: seq<Confirmation>)
    decreases |confs|
  {
    confs != [] ==> Matches(pm, confs[0]) && AllMatch(Confirm(pm, confs[0]), confs[1..])
  }

  /** Each new client id is new when it is used. */
  ghost predicate FreshIds(pm: Manager, jobs: seq<Job>)
    decreases |jobs|
  {
    jobs != [] ==>
      && jobs[0].id !in pm.live
      && FreshIds(Reconcile(pm, jobs[0].symbol, jobs[0].id, jobs[0].accepts), jobs[1..])
  }

  ghost predicate Touched(confs: seq<Confirmation>, updates: seq<(string, int)>, symbol: string) {
    || (exists i :: 0 <= i < |confs| && confs[i].symbol == symbol)
    || (exists i :: 0 <= i < |updates| && updates[i].0 == symbol)
  }

  ghost predicate Scheduled(jobs: seq<Job>, symbol: string) { exists i :: 0 <= i < |jobs| && jobs[i].symbol == symbol }

  /** Draining the queues takes only the symbols they name off target. */
  lemma {:induction false} ConfirmAllMoves(pm: Manager, confs: seq<Confirmation>)
    requires Agree(pm) && AllMatch(pm, confs)
    ensures var pm' := ConfirmAll(pm, confs);
            && Agree(pm')
            && forall symbol :: OnTarget(pm, symbol) && (forall i :: 0 <= i < |confs| ==> confs[i].symbol != symbol)
                                ==> OnTarget(pm', symbol)
    decreases |confs|
  {
    if confs != [] {
      ConfirmKeepsAgree(pm, confs[0]);
      ConfirmAllMoves(Confirm(pm, confs[0]), confs[1..]);
      forall symbol | OnTarget(pm, symbol) && (forall i :: 0 <= i < |confs| ==> confs[i].symbol != symbol)
        ensures OnTarget(ConfirmAll(pm, confs), symbol)
      {
        assert confs[0].symbol != symbol;
        ConfirmMovesWorking(pm, confs[0], symbol);
        assert forall i :: 0 <= i < |confs[1..]| ==> confs[1..][i] == confs[i + 1];
      }
    }
  }

  lemma {:induction false} RetargetAllMoves(pm: Manager, updates: seq<(string, int)>)
    requires Agree(pm)
    ensures var pm' := RetargetAll(pm, updates);
            && Agree(pm')
            && forall symbol :: OnTarget(pm, symbol) && (forall i :: 0 <= i < |updates| ==> updates[i].0 != symbol)
                                ==> OnTarget(pm', symbol)
    decreases |updates|
  {
    if updates != [] {
      RetargetMoves(pm, updates[0], "");
      RetargetAllMoves(Retarget(pm, updates[0]), updates[1..]);
      forall symbol | OnTarget(pm, symbol) && (forall i :: 0 <= i < |updates| ==> updates[i].0 != symbol)
        ensures OnTarget(RetargetAll(pm, updates), symbol)
      {
        assert updates[0].0 != symbol;
        RetargetMoves(pm, updates[0], symbol);
        assert forall i :: 0 <= i < |updates[1..]| ==> updates[1..][i] == updates[i + 1];
      }
    }
  }

  lemma {:induction false} ReconcileAllReaches(pm: Manager, jobs: seq<Job>)
    requires Agree(pm) && FreshIds(pm, jobs)
    ensures var pm' := ReconcileAll(pm, jobs);
            && Agree(pm')
            && forall symbol :: OnTarget(pm, symbol) || Scheduled(jobs, symbol) ==> OnTarget(pm', symbol)
    decreases |jobs|
  {
    if jobs != [] {
      var pm1 := Reconcile(pm, jobs[0].symbol, jobs[0].id, jobs[0].accepts);
      ReconcileReachesTarget(pm, jobs[0].symbol, jobs[0].id, jobs[0].accepts, "");
      ReconcileAllReaches(pm1, jobs[1..]);
      forall symbol | OnTarget(pm, symbol) || Scheduled(jobs, symbol)
        ensures OnTarget(ReconcileAll(pm, jobs), symbol)
      {
        ReconcileReachesTarget(pm, jobs[0].symbol, jobs[0].id, jobs[0].accepts, symbol);
        if !OnTarget(pm1, symbol) {
          var i :| 0 <= i < |jobs| && jobs[i].symbol == symbol;
          assert jobs[1..][i - 1].symbol == symbol;
        }
      }
    }
  }

  /** At the end of every iteration every symbol's working position equals its target (0 by
      default), even with cancels pending, as long as the symbols drained are reconciled. */
  lemma IterationOnTarget(pm: Manager, confs: seq<Confirmation>, updates: seq<(string, int)>, jobs: seq<Job>)
    requires Agree(pm) && AllMatch(pm, confs) && forall symbol :: OnTarget(pm, symbol)
    requires FreshIds(RetargetAll(ConfirmAll(pm, confs), updates), jobs)
    requires forall symbol :: Touched(confs, updates, symbol) ==> Scheduled(jobs, symbol)
    ensures Agree(Iterate(pm, confs, updates, jobs))
    ensures forall symbol :: OnTarget(Iterate(pm, confs, updates, jobs), symbol)
  {
    var pm1 := ConfirmAll(pm, confs);
    var pm2 := RetargetAll(pm1, updates);
    ConfirmAllMoves(pm, confs);
    RetargetAllMoves(pm1, updates);
    ReconcileAllReaches(pm2, jobs);
    forall symbol ensures OnTarget(Iterate(pm, confs, updates, jobs), symbol) {
      assert OnTarget(pm, symbol);
      if !Scheduled(jobs, symbol) {
        assert !Touched(confs, updates, symbol);
        assert OnTarget(pm1, symbol);
        assert OnTarget(pm2, symbol);
      }
    }
  }

  // ---------- Fills alone cause no orders ----------

  /** A fill of a live order on its side that does not overfill it, Filled exactly when it
      completes the order. */
  ghost predicate ProperFill(pm: Manager, c: Confirmation) {
    && c.clientId in pm.live
    && var o := pm.live[c.clientId];
       && c.symbol == o.symbol && c.side == o.side
       && o.filled + c.filled <= o.quantity
       && (c.status == PartiallyFilled || (c.status == Filled && o.filled + c.filled == o.quantity))
  }

  ghost predicate ProperFills(pm: Manager, confs: seq<Confirmation>)
    decreases |confs|
  {
    confs != [] ==> ProperFill(pm, confs[0]) && ProperFills(Confirm(pm, confs[0]), confs[1..])
  }

  lemma ProperFillShiftsNothing(pm: Manager, c: Confirmation)
    requires Agree(pm) && ProperFill(pm, c)
    ensures Matches(pm, c) && Shift(pm, c) == 0
  {
    assert LiveOk(pm, c.clientId);
  }

  /** A batch of proper fills leaves every working position where it was. */
  lemma {:induction false} FillsKeepWorking(pm: Manager, confs: seq<Confirmation>)
    requires Agree(pm) && ProperFills(pm, confs)
    ensures var pm' := ConfirmAll(pm, confs);
            Agree(pm') && forall symbol :: Delta(pm', symbol) == Delta(pm, symbol)
    decreases |confs|
  {
    if confs != [] {
      ProperFillShiftsNothing(pm, confs[0]);
      ConfirmKeepsAgree(pm, confs[0]);
      FillsKeepWorking(Confirm(pm, confs[0]), confs[1..]);
      forall symbol ensures Delta(ConfirmAll(pm, confs), symbol) == Delta(pm, symbol) {
        ConfirmMovesWorking(pm, confs[0], symbol);
      }
    }
  }

  /** From an on-target state, fills alone make reconciliation submit and cancel nothing: of all
      symbols in any order, with any ids, the manager sends no order and no cancel to the broker,
      and its own state is what the fills made it. */
  lemma FillsCauseNoOrders(pm: Manager, confs: seq<Confirmation>, orders: map<string, Simulated>,
                           jobs: seq<(string, string)>)
    requires Agree(pm) && ProperFills(pm, confs) && forall symbol :: OnTarget(pm, symbol)
    ensures ReconcileBoth(ConfirmAll(pm, confs), orders, jobs) == (ConfirmAll(pm, confs), orders)
  {
    FillsKeepWorking(pm, confs);
    var pm' := ConfirmAll(pm, confs);
    forall symbol ensures Delta(pm', symbol) == 0 {
      assert OnTarget(pm, symbol);
    }
    NothingToDo(pm', orders, jobs);
  }

  lemma {:induction false} NothingToDo(pm: Manager, orders: map<string, Simulated>, jobs: seq<(string, string)>)
    requires forall symbol :: Delta(pm, symbol) == 0
    ensures ReconcileBoth(pm, orders, jobs) == (pm, orders)
    decreases |jobs|
  {
    if jobs != [] {
      assert Delta(pm, jobs[0].0) == 0;
      NothingToDo(pm, orders, jobs[1..]);
    }
  }

  /** A cancellation or rejection without a fill takes exactly the unfilled rest of the order off
      the working position. */
  lemma EmptyTerminalShift(pm: Manager, c: Confirmation)
    requires Agree(pm) && c.clientId in pm.live && c.symbol == pm.live[c.clientId].symbol
    requires c.filled == 0 && (c.status == Cancelled || c.status == Rejected)
    ensures var o := pm.live[c.clientId];
            WorkingPosition(Confirm(pm, c), c.symbol)
            == WorkingPosition(pm, c.symbol)
               - (if o.filled < o.quantity then (o.quantity - o.filled) * o.side.Sign() else 0)
  {
    ConfirmMovesWorking(pm, c, c.symbol);
    assert LiveOk(pm, c.clientId);
  }
}
