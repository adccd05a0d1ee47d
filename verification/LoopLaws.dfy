/** One round of the manager's loop, step by step against all at once: steps of the manager that
    nothing interrupts drain both queues and reconcile, as the functions of PositionModel say. */
module LoopLaws {
  import opened Confirmations
  import opened PositionModel
  import opened PositionLaws
  import opened Interleaving

  /** What the broker holds of the order behind a thread. */
  function SimulatedOf(t: Thread): Simulated { Simulated(t.symbol, t.amount, t.side, t.filled, t.cancelling) }

  /** `orders` are the orders the broker knows, as their threads have them. */
  ghost predicate Holds(w: World, orders: map<string, Simulated>) {
    && orders.Keys == w.brokerLive
    && forall i :: 0 <= i < |w.threads| && w.threads[i].id in orders ==>
         orders[w.threads[i].id] == SimulatedOf(w.threads[i])
  }

  /** A step of the manager inside one round of its loop. */
  predicate InRound(step: Step) {
    || step.TakeConf? || step.NoMoreConfs? || step.TakeTarget? || step.NoMoreTargets?
    || step.Choose? || step.CancelOne? || step.PlaceOrder?
  }

  ghost predicate OneRound(steps: seq<Step>) { forall i :: 0 <= i < |steps| ==> InRound(steps[i]) }

  /** Manager and broker once the work in hand is finished: the queues drained, or the symbol
      reconciled with a new order under `id`. */
  function Completed(w: World, orders: map<string, Simulated>, id: string): (Manager, map<string, Simulated>) {
    match w.mode
    case Confirming(_) => (RetargetAll(ConfirmAll(w.pm, w.confQ), w.targetQ), orders)
    case Retargeting(_) => (RetargetAll(w.pm, w.targetQ), orders)
    case Choosing(_) => (w.pm, orders)
    case Cancelling(_, symbol, side, quantity, ids) =>
      (Track(CancelOpposing(w.pm, ids, side, orders.Keys), id, symbol, side, quantity),
       CancelAtBroker(w.pm, ids, side, orders)[id := Simulated(symbol, quantity, side, 0, false)])
  }

  function NamedIn(confQ: seq<Confirmation>): set<string> { set c | c in confQ :: c.symbol }

  function Retargeted(targetQ: seq<(string, int)>): set<string> { set u | u in targetQ :: u.0 }

  /** The symbols still to be chosen in this round. */
  function ToDo(w: World): set<string> {
    match w.mode
    case Confirming(todo) => todo + NamedIn(w.confQ) + Retargeted(w.targetQ)
    case Retargeting(todo) => todo + Retargeted(w.targetQ)
    case Choosing(todo) => todo
    case Cancelling(todo, _, _, _, _) => todo
  }

  // ---------- Single steps ----------

  /** Draining moves nothing but what `Completed` has counted in. */
  lemma DrainStep(w: World, step: Step, orders: map<string, Simulated>, id: string)
    requires Enabled(w, step) && Holds(w, orders)
    requires step.TakeConf? || step.NoMoreConfs? || step.TakeTarget? || step.NoMoreTargets?
    ensures var w' := Next(w, step);
            Holds(w', orders) && Completed(w', orders, id) == Completed(w, orders, id) && ToDo(w') == ToDo(w)
  {
    hide Confirm, Retarget;
    if step.TakeConf? {
      assert w.confQ == [w.confQ[0]] + w.confQ[1..];
      assert NamedIn(w.confQ) == {w.confQ[0].symbol} + NamedIn(w.confQ[1..]);
    } else if step.TakeTarget? {
      assert w.targetQ == [w.targetQ[0]] + w.targetQ[1..];
      assert Retargeted(w.targetQ) == {w.targetQ[0].0} + Retargeted(w.targetQ[1..]);
    }
  }

  /** Choosing a symbol is the beginning of reconciling it. */
  lemma ChooseStep(w: World, symbol: string, orders: map<string, Simulated>, id: string)
    requires Enabled(w, Choose(symbol)) && Holds(w, orders)
    ensures var w' := Next(w, Choose(symbol));
            && Holds(w', orders) && ToDo(w') == ToDo(w) - {symbol}
            && Completed(w', orders, id)
               == (Reconcile(w.pm, symbol, id, orders.Keys), OrdersAfter(w.pm, symbol, id, orders))
  {
  }

  /** The broker's orders after one cancel request. */
  function AfterAsking(w: World, orders: map<string, Simulated>): map<string, Simulated>
    requires Enabled(w, CancelOne)
  {
    var id := w.mode.ids[0];
    if Opposes(w.pm, id, w.mode.side) && id in orders then orders[id := orders[id].(cancelling := true)] else orders
  }

  lemma CancelStep(w: World, orders: map<string, Simulated>, id: string)
    requires Enabled(w, CancelOne) && Holds(w, orders)
    ensures var w' := Next(w, CancelOne);
            && Holds(w', AfterAsking(w, orders)) && ToDo(w') == ToDo(w)
            && Completed(w', AfterAsking(w, orders), id) == Completed(w, orders, id)
  {
    var w' := Next(w, CancelOne);
    hide Opposes, MarkPending, Track;
    assert AfterAsking(w, orders).Keys == orders.Keys;
    forall i | 0 <= i < |w'.threads| && w'.threads[i].id in AfterAsking(w, orders)
      ensures AfterAsking(w, orders)[w'.threads[i].id] == SimulatedOf(w'.threads[i])
    {
      assert orders[w.threads[i].id] == SimulatedOf(w.threads[i]);
    }
  }

  lemma PlaceStep(w: World, id: string, orders: map<string, Simulated>)
    requires Enabled(w, PlaceOrder(id)) && Holds(w, orders)
    ensures var w', (pm, orders') := Next(w, PlaceOrder(id)), Completed(w, orders, id);
            w'.pm == pm && Holds(w', orders') && ToDo(w') == ToDo(w) && w'.mode.Choosing?
  {
    var w', orders' := Next(w, PlaceOrder(id)), Completed(w, orders, id).1;
    hide Track;
    assert orders'.Keys == orders.Keys + {id};
    forall i | 0 <= i < |w'.threads| && w'.threads[i].id in orders'
      ensures orders'[w'.threads[i].id] == SimulatedOf(w'.threads[i])
    {
      assert i < |w.threads| ==> w.threads[i].id != id && w'.threads[i] == w.threads[i];
    }
  }

  lemma JobFirst(jobs: seq<(string, string)>, job: (string, string), symbols: set<string>)
    requires JobsFor(jobs, symbols - {job.0}) && job.0 in symbols
    ensures JobsFor([job] + jobs, symbols)
  {
    var all := [job] + jobs;
    forall i | 0 < i < |all| ensures all[i] == jobs[i - 1] {
    }
  }

  // ---------- A whole round ----------

  /** From any point of a round to its end. */
  lemma {:induction false} RestOfRound(w: World, steps: seq<Step>, orders: map<string, Simulated>)
      returns (id: string, jobs: seq<(string, string)>, orders': map<string, Simulated>)
    requires Possible(w, steps) && OneRound(steps) && Holds(w, orders) && After(w, steps).mode == Choosing({})
    ensures JobsFor(jobs, ToDo(w)) && Holds(After(w, steps), orders')
    ensures var (pm1, orders1) := Completed(w, orders, id);
            ReconcileBoth(pm1, orders1, jobs) == (After(w, steps).pm, orders')
    decreases |steps|, 0
  {
    if steps == [] {
      id, jobs, orders' := "", [], orders;
    } else {
      var step, rest, w1 := steps[0], steps[1..], Next(w, steps[0]);
      assert InRound(step) && OneRound(rest);
      hide Enabled, Next, Completed, ToDo, Holds, JobsFor, ReconcileBoth;
      if step.Choose? {
        id, jobs, orders' := AfterChoosing(w, step.symbol, rest, orders);
      } else if step.CancelOne? {
        CancelStep(w, orders, "");
        id, jobs, orders' := RestOfRound(w1, rest, AfterAsking(w, orders));
        CancelStep(w, orders, id);
      } else if step.PlaceOrder? {
        PlaceStep(w, step.id, orders);
        var last: string;
        last, jobs, orders' := RestOfRound(w1, rest, Completed(w, orders, step.id).1);
        CompletedChoosing(w1, Completed(w, orders, step.id).1, last);
        id := step.id;
      } else {
        DrainStep(w, step, orders, "");
        id, jobs, orders' := RestOfRound(w1, rest, orders);
        DrainStep(w, step, orders, id);
      }
    }
  }

  lemma CompletedChoosing(w: World, orders: map<string, Simulated>, id: string)
    requires w.mode.Choosing?
    ensures Completed(w, orders, id) == (w.pm, orders)
  {
  }

  lemma {:induction false} AfterChoosing(w: World, symbol: string, rest: seq<Step>, orders: map<string, Simulated>)
      returns (id: string, jobs: seq<(string, string)>, orders': map<string, Simulated>)
    requires Enabled(w, Choose(symbol)) && Possible(Next(w, Choose(symbol)), rest) && OneRound(rest)
    requires Holds(w, orders) && After(Next(w, Choose(symbol)), rest).mode == Choosing({})
    ensures JobsFor(jobs, ToDo(w)) && Holds(After(Next(w, Choose(symbol)), rest), orders')
    ensures var (pm1, orders1) := Completed(w, orders, id);
            ReconcileBoth(pm1, orders1, jobs) == (After(Next(w, Choose(symbol)), rest).pm, orders')
    decreases |rest|, 1
  {
    var w1 := Next(w, Choose(symbol));
    assert w.mode.Choosing? && symbol in ToDo(w);
    hide Next, Completed, ToDo, Holds, JobsFor, Reconcile, OrdersAfter;
    ChooseStep(w, symbol, orders, "");
    var more: seq<(string, string)>;
    id, more, orders' := RestOfRound(w1, rest, orders);
    ChooseStep(w, symbol, orders, id);
    CompletedChoosing(w, orders, id);
    jobs := [(symbol, id)] + more;
    assert jobs[1..] == more;
    JobFirst(more, (symbol, id), ToDo(w));
  }

  /** A round that nothing interrupts, from an idle loop on: it drains both queues, reconciles
      exactly the symbols they named, each once, and moves manager and broker as the round of
      the manager object does. */
  lemma UninterruptedRound(w: World, steps: seq<Step>, orders: map<string, Simulated>)
      returns (jobs: seq<(string, string)>, orders': map<string, Simulated>)
    requires w.mode == Confirming({}) && Possible(w, steps) && OneRound(steps) && Holds(w, orders)
    requires After(w, steps).mode == Choosing({})
    ensures (After(w, steps).pm, orders')
            == ReconcileBoth(RetargetAll(ConfirmAll(w.pm, w.confQ), w.targetQ), orders, jobs)
    ensures JobsFor(jobs, NamedIn(w.confQ) + Retargeted(w.targetQ)) && Holds(After(w, steps), orders')
  {
    var id: string;
    id, jobs, orders' := RestOfRound(w, steps, orders);
    assert ToDo(w) == NamedIn(w.confQ) + Retargeted(w.targetQ);
  }
}
