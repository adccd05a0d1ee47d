/** The position manager over the simulated broker, one atomic step at a time: every order runs
    in its own thread (position_manager/app/brokers/simulated_broker.py), confirmations travel
    through a queue, and the manager's loop interleaves with all of them. */
module Interleaving {
  import opened Types
  import opened Confirmations
  import opened PositionModel
  import opened PositionLaws

  /** Where an order thread stands: before the loop test, past it and about to fill, out of the
      loop, with its confirmation built, with the order removed from the broker, or finished. */
  datatype Phase = AtLoop | AtFill | AtStatus | AtReport(status: Status) | AtForward(status: Status) | Done

  datatype Thread = Thread(
    id: string, symbol: string, amount: nat, side: Side, filled: nat, cancelling: bool, phase: Phase)
  {
    /** The loop condition of line 41. */
    function LoopTest(): Thread { this.(phase := if !cancelling && filled < amount then AtFill else AtStatus) }

    /** The fill of lines 42-43, of `k` or of what is left. */
    function Fill(k: nat): Thread {
      this.(filled := if k <= amount - filled then filled + k else amount, phase := AtLoop)
    }

    /** The final status of line 49. */
    function Decide(): Thread { this.(phase := AtReport(if cancelling then Cancelled else Filled)) }

    function Cancel(): Thread { this.(cancelling := true) }
  }

  /** Where the manager's loop stands; `todo` are the symbols affected so far, or still to be
      reconciled. */
  datatype Mode =
    | Confirming(todo: set<string>)
    | Retargeting(todo: set<string>)
    | Choosing(todo: set<string>)
    | Cancelling(todo: set<string>, symbol: string, side: Side, quantity: nat, ids: seq<string>)

  datatype World = World(
    pm: Manager, mode: Mode, confQ: seq<Confirmation>, targetQ: seq<(string, int)>,
    brokerLive: set<string>, threads: seq<Thread>)

  const START := World(NEW_MANAGER, Confirming({}), [], [], {}, [])

  datatype Step =
    | CheckLoop(i: nat) | DoFill(i: nat, k: nat) | Decide(i: nat) | Report(i: nat) | Forward(i: nat)
    | Ask(symbol: string, amount: int)
    | TakeConf | NoMoreConfs | TakeTarget | NoMoreTargets
    | Choose(symbol: string) | CancelOne | PlaceOrder(id: string) | EndIteration

  function MaxFill(amount: nat): nat { if amount / 10 < 1 then 1 else amount / 10 }

  function ConfOf(t: Thread, i: nat, status: Status): Confirmation {
    Confirmation(i, t.id, t.symbol, t.filled, t.side, 100, status)
  }

  predicate Enabled(w: World, step: Step) {
    match step
    case CheckLoop(i) => i < |w.threads| && w.threads[i].phase.AtLoop?
    case DoFill(i, k) => i < |w.threads| && w.threads[i].phase.AtFill? && 1 <= k <= MaxFill(w.threads[i].amount)
    case Decide(i) => i < |w.threads| && w.threads[i].phase.AtStatus?
    case Report(i) => i < |w.threads| && w.threads[i].phase.AtReport?
    case Forward(i) => i < |w.threads| && w.threads[i].phase.AtForward?
    case Ask(_, _) => true
    case TakeConf => w.mode.Confirming? && w.confQ != []
    case NoMoreConfs => w.mode.Confirming? && w.confQ == []
    case TakeTarget => w.mode.Retargeting? && w.targetQ != []
    case NoMoreTargets => w.mode.Retargeting? && w.targetQ == []
    case Choose(symbol) => w.mode.Choosing? && symbol in w.mode.todo
    case CancelOne => w.mode.Cancelling? && w.mode.ids != []
    case PlaceOrder(id) => w.mode.Cancelling? && w.mode.ids == [] && NewId(w, id)
    case EndIteration => w.mode == Choosing({})
  }

  /** Client ids are generated anew for every order. */
  predicate NewId(w: World, id: string) {
    id !in w.pm.live && id !in w.brokerLive && forall i :: 0 <= i < |w.threads| ==> w.threads[i].id != id
  }

  function Moved(w: World, i: nat, t: Thread): World
    requires i < |w.threads|
  {
    w.(threads := w.threads[i := t])
  }

  /** `cancel_order` of the broker sets the flag of the order it knows under `id`. */
  function Flagged(threads: seq<Thread>, id: string): seq<Thread> {
    seq(|threads|, i requires 0 <= i < |threads| =>
      if threads[i].id == id then threads[i].Cancel() else threads[i])
  }

  function Next(w: World, step: Step): World
    requires Enabled(w, step)
  {
    match step
    case CheckLoop(i) => Moved(w, i, w.threads[i].LoopTest())
    case DoFill(i, k) => Moved(w, i, w.threads[i].Fill(k))
    case Decide(i) => Moved(w, i, w.threads[i].Decide())
    case Report(i) =>
      var t := w.threads[i];
      Moved(w, i, t.(phase := AtForward(t.phase.status))).(brokerLive := w.brokerLive - {t.id})
    case Forward(i) =>
      var t := w.threads[i];
      Moved(w, i, t.(phase := Done)).(confQ := w.confQ + [ConfOf(t, i, t.phase.status)])
    case Ask(symbol, amount) =>
      w.(targetQ := w.targetQ + [(symbol, amount)])
    case TakeConf =>
      var c := w.confQ[0];
      w.(pm := Confirm(w.pm, c), confQ := w.confQ[1..], mode := Confirming(w.mode.todo + {c.symbol}))
    case NoMoreConfs =>
      w.(mode := Retargeting(w.mode.todo))
    case TakeTarget =>
      var u := w.targetQ[0];
      w.(pm := Retarget(w.pm, u), targetQ := w.targetQ[1..], mode := Retargeting(w.mode.todo + {u.0}))
    case NoMoreTargets =>
      w.(mode := Choosing(w.mode.todo))
    case Choose(symbol) =>
      var delta, todo := Delta(w.pm, symbol), w.mode.todo - {symbol};
      w.(mode := if delta == 0 then Choosing(todo)
                 else Cancelling(todo, symbol, SideFor(delta), Abs(delta), IdsFor(w.pm, symbol)))
    case CancelOne =>
      var id, mode := w.mode.ids[0], w.mode.(ids := w.mode.ids[1..]);
      if Opposes(w.pm, id, w.mode.side) && id in w.brokerLive then
        w.(pm := MarkPending(w.pm, id), threads := Flagged(w.threads, id), mode := mode)
      else w.(mode := mode)
    case PlaceOrder(id) =>
      var m := w.mode;
      w.(pm := Track(w.pm, id, m.symbol, m.side, m.quantity), brokerLive := w.brokerLive + {id},
         threads := w.threads + [Thread(id, m.symbol, m.quantity, m.side, 0, false, AtLoop)],
         mode := Choosing(m.todo))
    case EndIteration =>
      w.(mode := Confirming({}))
  }

  /** What happens to an order while its thread runs: a step of the thread, or a cancel. */
  ghost predicate ThreadStep(t: Thread, t': Thread) {
    || (t.phase.AtLoop? && t' == t.LoopTest())
    || (t.phase.AtFill? && exists k :: 1 <= k <= MaxFill(t.amount) && t' == t.Fill(k))
    || (t.phase.AtStatus? && t' == t.Decide())
    || t' == t.Cancel()
  }

  /** Whatever step is taken, a thread that has not come to its report moves by `ThreadStep`, if
      at all. */
  lemma ThreadsMoveByStep(w: World, step: Step, i: nat)
    requires Enabled(w, step) && i < |w.threads|
    ensures var t, t' := w.threads[i], Next(w, step).threads[i];
            t' == t || t.phase.AtReport? || t.phase.AtForward? || ThreadStep(t, t')
  {
    var t := w.threads[i];
    if step.DoFill? && step.i == i {
      assert Next(w, step).threads[i] == t.Fill(step.k);
    }
  }

  // ---------- Shares ----------

  /** What has become of a thread's fills: not yet reported, in a confirmation still in the
      thread's hands, or handed to the queue. */
  datatype Stage = Unreported | InHand | Delivered

  function StageOf(p: Phase): Stage {
    match p
    case AtReport(_) => InHand
    case AtForward(_) => InHand
    case Done => Delivered
    case _ => Unreported
  }

  function Weight(t: Thread, symbol: string, stage: Stage): int {
    if t.symbol == symbol && StageOf(t.phase) == stage then t.filled * t.side.Sign() else 0
  }

  function Shares(threads: seq<Thread>, symbol: string, stage: Stage): int {
    if threads == [] then 0
    else Shares(threads[..|threads| - 1], symbol, stage) + Weight(threads[|threads| - 1], symbol, stage)
  }

  /** All signed shares ever filled in a symbol. */
  function EverFilled(threads: seq<Thread>, symbol: string): int {
    if threads == [] then 0
    else
      var t := threads[|threads| - 1];
      EverFilled(threads[..|threads| - 1], symbol) + (if t.symbol == symbol then t.filled * t.side.Sign() else 0)
  }

  lemma {:induction false} SharesChange(threads: seq<Thread>, i: nat, t: Thread, symbol: string, stage: Stage)
    requires i < |threads|
    ensures Shares(threads[i := t], symbol, stage)
            == Shares(threads, symbol, stage) - Weight(threads[i], symbol, stage) + Weight(t, symbol, stage)
  {
    var n := |threads| - 1;
    if i == n {
      assert threads[i := t][..n] == threads[..n];
    } else {
      assert threads[i := t][..n] == threads[..n][i := t];
      SharesChange(threads[..n], i, t, symbol, stage);
    }
  }

  lemma {:induction false} SharesSame(a: seq<Thread>, b: seq<Thread>, symbol: string, stage: Stage)
    requires |a| == |b| && forall i :: 0 <= i < |a| ==> Weight(a[i], symbol, stage) == Weight(b[i], symbol, stage)
    ensures Shares(a, symbol, stage) == Shares(b, symbol, stage)
  {
    if a != [] {
      SharesSame(a[..|a| - 1], b[..|b| - 1], symbol, stage);
    }
  }

  lemma {:induction false} StagesAddUp(threads: seq<Thread>, symbol: string)
    ensures EverFilled(threads, symbol)
            == Shares(threads, symbol, Unreported) + Shares(threads, symbol, InHand)
               + Shares(threads, symbol, Delivered)
  {
    if threads != [] {
      StagesAddUp(threads[..|threads| - 1], symbol);
    }
  }

  lemma {:induction false} QueuedMore(confQ: seq<Confirmation>, c: Confirmation, symbol: string)
    ensures NetFilled(confQ + [c], symbol) == NetFilled(confQ, symbol) + if c.symbol == symbol then c.Signed() else 0
  {
    if confQ == [] {
      assert [] + [c] == [c] && [c][1..] == [];
    } else {
      assert (confQ + [c])[1..] == confQ[1..] + [c];
      QueuedMore(confQ[1..], c, symbol);
    }
  }

  // ---------- The invariant ----------

  predicate Running(p: Phase) { p.AtLoop? || p.AtFill? || p.AtStatus? || p.AtReport? }

  predicate EndStatus(t: Thread, status: Status) {
    (status == Cancelled && t.cancelling) || (status == Filled && t.filled == t.amount)
  }

  predicate PhaseOk(t: Thread) {
    && t.filled <= t.amount && 0 < t.amount
    && match t.phase
       case AtFill => t.filled < t.amount
       case AtStatus => t.cancelling || t.filled == t.amount
       case AtReport(status) => EndStatus(t, status)
       case AtForward(status) => EndStatus(t, status)
       case _ => true
  }

  /** The manager tracks this thread's order on the same terms, with no fill heard of yet. */
  predicate TrackedAs(pm: Manager, t: Thread) {
    && t.id in pm.live
    && var o := pm.live[t.id];
       o.symbol == t.symbol && o.quantity == t.amount && o.side == t.side && o.filled == 0
  }

  ghost predicate ThreadOk(w: World, i: nat)
    requires i < |w.threads|
  {
    var t := w.threads[i];
    && PhaseOk(t)
    && (t.id in w.brokerLive <==> Running(t.phase))
    && (!t.phase.Done? ==> TrackedAs(w.pm, t))
  }

  /** A queued confirmation is that of a finished thread whose order the manager still tracks. */
  ghost predicate QueuedOk(w: World, c: Confirmation) {
    && 0 <= c.orderId < |w.threads|
    && var t := w.threads[c.orderId];
       && t.phase.Done? && c == ConfOf(t, c.orderId, c.status)
       && EndStatus(t, c.status) && TrackedAs(w.pm, t)
  }

  ghost predicate DistinctIds(threads: seq<Thread>) {
    forall i, j :: 0 <= i < j < |threads| ==> threads[i].id != threads[j].id
  }

  ghost predicate DistinctOrders(confQ: seq<Confirmation>) {
    forall i, j :: 0 <= i < j < |confQ| ==> confQ[i].orderId != confQ[j].orderId
  }

  /** A thread still to report, or its confirmation in the queue, stands behind a live order. */
  ghost predicate Outstanding(w: World, id: string) {
    exists i :: 0 <= i < |w.threads| && w.threads[i].id == id
                && (!w.threads[i].phase.Done? || InQueue(w.confQ, i))
  }

  ghost predicate InQueue(confQ: seq<Confirmation>, i: nat) { exists j :: 0 <= j < |confQ| && confQ[j].orderId == i }

  /** The symbols that may be off target at this point of the loop. */
  function Exempt(mode: Mode): set<string> {
    if mode.Cancelling? then mode.todo + {mode.symbol} else mode.todo
  }

  ghost predicate ModeOk(w: World) {
    && (forall symbol :: symbol !in Exempt(w.mode) ==> OnTarget(w.pm, symbol))
    && (w.mode.Cancelling? ==>
          0 < w.mode.quantity && Delta(w.pm, w.mode.symbol) == w.mode.quantity * w.mode.side.Sign())
  }

  ghost predicate Balanced(w: World) {
    forall symbol :: Position(w.pm, symbol) + NetFilled(w.confQ, symbol) == Shares(w.threads, symbol, Delivered)
  }

  ghost predicate ThreadsOk(w: World) {
    && DistinctIds(w.threads)
    && (forall i: nat :: i < |w.threads| ==> ThreadOk(w, i))
    && DistinctOrders(w.confQ)
    && (forall j :: 0 <= j < |w.confQ| ==> QueuedOk(w, w.confQ[j]))
    && (forall id :: id in w.pm.live ==> Outstanding(w, id))
  }

  ghost predicate WorldOk(w: World) { Agree(w.pm) && ThreadsOk(w) && ModeOk(w) && Balanced(w) }

  // ---------- Steps of an order thread ----------

  /** A thread moves on without finishing; the broker's view of the others is unchanged. */
  ghost predicate ThreadMoved(w: World, i: nat, t: Thread, w': World) {
    && i < |w.threads| && !w.threads[i].phase.Done? && !t.phase.Done?
    && t == w.threads[i].(filled := t.filled, phase := t.phase)
    && PhaseOk(t)
    && w' == w.(threads := w.threads[i := t], brokerLive := w'.brokerLive)
    && (t.id in w'.brokerLive <==> Running(t.phase))
    && (forall id :: id != t.id ==> (id in w'.brokerLive <==> id in w.brokerLive))
  }

  lemma ThreadMoveKeeps(w: World, i: nat, t: Thread, w': World)
    requires WorldOk(w) && ThreadMoved(w, i, t, w')
    ensures WorldOk(w')
  {
    hide Agree, ModeOk, Balanced, ThreadOk, QueuedOk, PhaseOk;
    assert ThreadOk(w, i);
    forall j: nat | j < |w'.threads| ensures ThreadOk(w', j) {
      ThreadMoveThread(w, i, t, w', j);
    }
    forall j | 0 <= j < |w'.confQ| ensures QueuedOk(w', w'.confQ[j]) {
      ThreadMoveQueued(w, i, t, w', j);
    }
    forall id | id in w'.pm.live ensures Outstanding(w', id) {
      var k := Behind(w, id);
      assert w'.threads[k].id == id;
    }
    ThreadMoveBalance(w, i, t, w');
  }

  lemma ThreadMoveThread(w: World, i: nat, t: Thread, w': World, j: nat)
    requires ThreadsOk(w) && ThreadMoved(w, i, t, w') && j < |w.threads|
    ensures ThreadOk(w', j)
  {
    assert ThreadOk(w, j) && ThreadOk(w, i);
  }

  lemma ThreadMoveQueued(w: World, i: nat, t: Thread, w': World, j: nat)
    requires ThreadsOk(w) && ThreadMoved(w, i, t, w') && j < |w.confQ|
    ensures QueuedOk(w', w'.confQ[j])
  {
    assert QueuedOk(w, w.confQ[j]);
  }

  lemma ThreadMoveBalance(w: World, i: nat, t: Thread, w': World)
    requires ModeOk(w) && Balanced(w) && ThreadMoved(w, i, t, w')
    ensures ModeOk(w') && Balanced(w')
  {
    hide OnTarget, Shares, NetFilled;
    forall symbol
      ensures Position(w'.pm, symbol) + NetFilled(w'.confQ, symbol) == Shares(w'.threads, symbol, Delivered)
    {
      SharesChange(w.threads, i, t, symbol, Delivered);
    }
  }

  lemma ThreadStepKeeps(w: World, step: Step)
    requires WorldOk(w) && Enabled(w, step)
    requires step.CheckLoop? || step.DoFill? || step.Decide? || step.Report?
    ensures WorldOk(Next(w, step))
  {
    var w' := Next(w, step);
    assert ThreadOk(w, step.i);
    ThreadMoveKeeps(w, step.i, w'.threads[step.i], w');
  }

  lemma ForwardThread(w: World, i: nat, j: nat)
    requires ThreadsOk(w) && Enabled(w, Forward(i)) && j < |w.threads|
    ensures ThreadOk(Next(w, Forward(i)), j)
  {
    assert ThreadOk(w, j);
  }

  lemma ForwardQueued(w: World, i: nat, j: nat)
    requires ThreadsOk(w) && Enabled(w, Forward(i)) && j < |w.confQ|
    ensures w.confQ[j].orderId != i && QueuedOk(Next(w, Forward(i)), w.confQ[j])
  {
    assert QueuedOk(w, w.confQ[j]);
  }

  lemma ForwardLast(w: World, i: nat)
    requires ThreadsOk(w) && Enabled(w, Forward(i))
    ensures var w', c := Next(w, Forward(i)), ConfOf(w.threads[i], i, w.threads[i].phase.status);
            w'.confQ[|w.confQ|] == c && QueuedOk(w', c)
  {
    assert ThreadOk(w, i);
  }

  lemma ForwardThreads(w: World, i: nat)
    requires ThreadsOk(w) && Enabled(w, Forward(i))
    ensures ThreadsOk(Next(w, Forward(i)))
  {
    var w' := Next(w, Forward(i));
    var c := ConfOf(w.threads[i], i, w.threads[i].phase.status);
    hide ThreadOk, QueuedOk;
    forall j: nat | j < |w'.threads| ensures ThreadOk(w', j) {
      ForwardThread(w, i, j);
    }
    forall j: nat | j < |w.confQ| ensures w.confQ[j].orderId != i && QueuedOk(w', w.confQ[j]) {
      ForwardQueued(w, i, j);
    }
    ForwardLast(w, i);
    forall id | id in w'.pm.live ensures Outstanding(w', id) {
      var k := Behind(w, id);
      assert w'.threads[k].id == id;
      if k == i {
        assert InQueue(w'.confQ, i);
      } else if w.threads[k].phase.Done? {
        QueueGrows(w.confQ, c, k);
      }
    }
  }

  /** The thread behind a live order. */
  lemma Behind(w: World, id: string) returns (k: nat)
    requires ThreadsOk(w) && id in w.pm.live
    ensures k < |w.threads| && w.threads[k].id == id && (!w.threads[k].phase.Done? || InQueue(w.confQ, k))
  {
    assert Outstanding(w, id);
    k :| 0 <= k < |w.threads| && w.threads[k].id == id && (!w.threads[k].phase.Done? || InQueue(w.confQ, k));
  }

  lemma ForwardBalance(w: World, i: nat, symbol: string)
    requires Balanced(w) && Enabled(w, Forward(i))
    ensures var w' := Next(w, Forward(i));
            Position(w'.pm, symbol) + NetFilled(w'.confQ, symbol) == Shares(w'.threads, symbol, Delivered)
  {
    var t := w.threads[i];
    SharesChange(w.threads, i, t.(phase := Done), symbol, Delivered);
    QueuedMore(w.confQ, ConfOf(t, i, t.phase.status), symbol);
    hide Shares, NetFilled;
  }

  /** The finished thread hands its confirmation to the queue. */
  lemma ForwardKeeps(w: World, i: nat)
    requires WorldOk(w) && Enabled(w, Forward(i))
    ensures WorldOk(Next(w, Forward(i)))
  {
    var w' := Next(w, Forward(i));
    hide ThreadsOk, Agree, OnTarget, Shares, NetFilled;
    ForwardThreads(w, i);
    forall symbol
      ensures Position(w'.pm, symbol) + NetFilled(w'.confQ, symbol) == Shares(w'.threads, symbol, Delivered)
    {
      ForwardBalance(w, i, symbol);
    }
  }

  lemma QueueGrows(confQ: seq<Confirmation>, c: Confirmation, k: nat)
    requires InQueue(confQ, k)
    ensures InQueue(confQ + [c], k)
  {
    var j :| 0 <= j < |confQ| && confQ[j].orderId == k;
    assert (confQ + [c])[j].orderId == k;
  }

  // ---------- Steps of the manager ----------

  /** The head of the queue names a tracked order: the unknown-id branch is never taken. */
  lemma HeadIsTracked(w: World)
    requires WorldOk(w) && w.confQ != []
    ensures var c := w.confQ[0];
            && c.clientId in w.pm.live && Matches(w.pm, c)
            && c.status.Terminal() && c.filled <= w.pm.live[c.clientId].quantity
            && (c.status == Filled ==> c.filled == w.pm.live[c.clientId].quantity)
  {
    assert QueuedOk(w, w.confQ[0]);
    assert ThreadOk(w, w.confQ[0].orderId);
  }

  lemma TakeConfKeeps(w: World)
    requires WorldOk(w) && Enabled(w, TakeConf)
    ensures WorldOk(Next(w, TakeConf))
  {
    var w' := Next(w, TakeConf);
    var c := w.confQ[0];
    HeadIsTracked(w);
    ConfirmKeepsAgree(w.pm, c);
    TakeConfThreads(w);
    forall symbol | symbol !in Exempt(w'.mode) ensures OnTarget(w'.pm, symbol) {
      assert OnTarget(w.pm, symbol);
      ConfirmMovesWorking(w.pm, c, symbol);
    }
  }

  /** The order of the head of the queue is no longer live, all others still are. */
  lemma HeadLeaves(w: World)
    requires WorldOk(w) && Enabled(w, TakeConf)
    ensures Next(w, TakeConf).pm.live == w.pm.live - {w.confQ[0].clientId}
    ensures QueuedOk(w, w.confQ[0]) && w.threads[w.confQ[0].orderId].id == w.confQ[0].clientId
  {
    HeadIsTracked(w);
    assert QueuedOk(w, w.confQ[0]);
  }

  lemma TakeConfThread(w: World, i: nat)
    requires WorldOk(w) && Enabled(w, TakeConf) && i < |w.threads|
    ensures ThreadOk(Next(w, TakeConf), i)
  {
    HeadLeaves(w);
    assert ThreadOk(w, i);
    hide Confirm;
    assert w.threads[i].id == w.confQ[0].clientId ==> w.confQ[0].orderId == i;
  }

  lemma TakeConfQueued(w: World, j: nat)
    requires WorldOk(w) && Enabled(w, TakeConf) && j < |w.confQ| - 1
    ensures Next(w, TakeConf).confQ[j] == w.confQ[j + 1] && QueuedOk(Next(w, TakeConf), w.confQ[j + 1])
  {
    HeadLeaves(w);
    assert QueuedOk(w, w.confQ[j + 1]);
    hide Confirm;
    assert w.confQ[j + 1].orderId != w.confQ[0].orderId;
    assert w.threads[w.confQ[j + 1].orderId].id != w.confQ[0].clientId;
  }

  lemma TakeConfOutstanding(w: World, id: string)
    requires WorldOk(w) && Enabled(w, TakeConf) && id in w.pm.live && id != w.confQ[0].clientId
    ensures Outstanding(Next(w, TakeConf), id)
  {
    var k := Behind(w, id);
    HeadLeaves(w);
    hide Confirm, ThreadsOk, QueuedOk;
    if w.threads[k].phase.Done? {
      var j :| 0 <= j < |w.confQ| && w.confQ[j].orderId == k;
      assert Next(w, TakeConf).confQ[j - 1].orderId == k;
    }
    assert Next(w, TakeConf).threads[k].id == id;
  }

  lemma TakeConfThreads(w: World)
    requires WorldOk(w) && Enabled(w, TakeConf)
    ensures ThreadsOk(Next(w, TakeConf))
  {
    var w' := Next(w, TakeConf);
    HeadLeaves(w);
    hide Confirm, ThreadOk, QueuedOk, Outstanding, Agree, ModeOk, Balanced;
    forall i: nat | i < |w'.threads| ensures ThreadOk(w', i) {
      TakeConfThread(w, i);
    }
    forall j: nat | j < |w'.confQ| ensures w'.confQ[j] == w.confQ[j + 1] && QueuedOk(w', w'.confQ[j]) {
      TakeConfQueued(w, j);
    }
    forall id | id in w'.pm.live ensures Outstanding(w', id) {
      TakeConfOutstanding(w, id);
    }
  }

  /** Cancel requests and new targets leave what is tracked, and for how much, alone. */
  lemma SameTermsKeep(w: World, w': World)
    requires ThreadsOk(w) && w'.confQ == w.confQ && w'.brokerLive == w.brokerLive
    requires |w'.threads| == |w.threads|
    requires forall i: nat :: i < |w.threads| ==>
               w'.threads[i] == w.threads[i] || w'.threads[i] == w.threads[i].(cancelling := true)
    requires w'.pm.live.Keys == w.pm.live.Keys
    requires forall id :: id in w.pm.live ==> w'.pm.live[id] == w.pm.live[id].(status := w'.pm.live[id].status)
    ensures ThreadsOk(w')
  {
    forall i: nat | i < |w'.threads| ensures ThreadOk(w', i) {
      assert ThreadOk(w, i);
    }
    forall j | 0 <= j < |w'.confQ| ensures QueuedOk(w', w'.confQ[j]) {
      assert QueuedOk(w, w.confQ[j]);
    }
    forall id | id in w'.pm.live ensures Outstanding(w', id) {
      var k := Behind(w, id);
      assert w'.threads[k].id == id;
    }
  }

  lemma FlaggedShares(threads: seq<Thread>, id: string, symbol: string)
    ensures Shares(Flagged(threads, id), symbol, Delivered) == Shares(threads, symbol, Delivered)
  {
    SharesSame(threads, Flagged(threads, id), symbol, Delivered);
  }

  /** Marks alone, on either side, keep every symbol where it was. */
  lemma MarksKeep(w: World, w': World)
    requires ModeOk(w) && Balanced(w) && Agree(w.pm) && SomeMarked(w.pm, w'.pm)
    requires w.mode.Cancelling? && w'.mode.Cancelling? && w'.mode == w.mode.(ids := w'.mode.ids) && w'.confQ == w.confQ
    requires forall symbol :: Shares(w'.threads, symbol, Delivered) == Shares(w.threads, symbol, Delivered)
    ensures Agree(w'.pm) && ModeOk(w') && Balanced(w')
  {
    MarkingKeeps(w.pm, w'.pm);
    hide Agree, Shares, WorkingPosition;
    forall symbol | symbol !in Exempt(w'.mode) ensures OnTarget(w'.pm, symbol) {
      assert OnTarget(w.pm, symbol);
    }
  }

  lemma CancelOneKeeps(w: World)
    requires WorldOk(w) && Enabled(w, CancelOne)
    ensures WorldOk(Next(w, CancelOne))
  {
    hide ThreadsOk, ModeOk, Balanced, Agree, Opposes, Shares;
    var w' := Next(w, CancelOne);
    SameTermsKeep(w, w');
    forall symbol ensures Shares(w'.threads, symbol, Delivered) == Shares(w.threads, symbol, Delivered) {
      FlaggedShares(w.threads, w.mode.ids[0], symbol);
    }
    MarksKeep(w, w');
  }

  lemma TakeTargetKeeps(w: World)
    requires WorldOk(w) && Enabled(w, TakeTarget)
    ensures WorldOk(Next(w, TakeTarget))
  {
    var w' := Next(w, TakeTarget);
    SameTermsKeep(w, w');
    RetargetMoves(w.pm, w.targetQ[0], "");
    forall symbol | symbol !in Exempt(w'.mode) ensures OnTarget(w'.pm, symbol) {
      assert OnTarget(w.pm, symbol);
      RetargetMoves(w.pm, w.targetQ[0], symbol);
    }
  }

  lemma ChooseKeeps(w: World, symbol: string)
    requires WorldOk(w) && Enabled(w, Choose(symbol))
    ensures WorldOk(Next(w, Choose(symbol)))
  {
    hide ThreadsOk, Agree, WorkingPosition, Shares, NetFilled;
    var w' := Next(w, Choose(symbol));
    SameTermsKeep(w, w');
    forall s | s !in Exempt(w'.mode) ensures OnTarget(w'.pm, s) {
      assert s !in Exempt(w.mode) ==> OnTarget(w.pm, s);
    }
  }

  lemma PlaceOrderTarget(w: World, id: string, symbol: string)
    requires Agree(w.pm) && ModeOk(w) && Enabled(w, PlaceOrder(id))
    requires symbol !in Exempt(Next(w, PlaceOrder(id)).mode)
    ensures OnTarget(Next(w, PlaceOrder(id)).pm, symbol)
  {
    var m := w.mode;
    hide Agree, WorkingPosition, Track;
    assert symbol != m.symbol ==> OnTarget(w.pm, symbol);
    TrackKeeps(w.pm, id, m.symbol, m.side, m.quantity, symbol);
  }

  lemma PlaceOrderBalance(w: World, id: string, symbol: string)
    requires Balanced(w) && Enabled(w, PlaceOrder(id))
    ensures var w' := Next(w, PlaceOrder(id));
            Position(w'.pm, symbol) + NetFilled(w'.confQ, symbol) == Shares(w'.threads, symbol, Delivered)
  {
    var w', n := Next(w, PlaceOrder(id)), |w.threads|;
    assert w'.threads[..n] == w.threads;
    assert Shares(w'.threads, symbol, Delivered)
           == Shares(w.threads, symbol, Delivered) + Weight(w'.threads[n], symbol, Delivered);
    hide Shares, NetFilled;
  }

  lemma PlaceOrderAgrees(w: World, id: string)
    requires Agree(w.pm) && ModeOk(w) && Enabled(w, PlaceOrder(id))
    ensures Agree(Next(w, PlaceOrder(id)).pm)
  {
    var m := w.mode;
    hide Agree, WorkingPosition, Track, OnTarget;
    TrackKeeps(w.pm, id, m.symbol, m.side, m.quantity, m.symbol);
  }

  lemma PlaceOrderMode(w: World, id: string)
    requires Agree(w.pm) && ModeOk(w) && Enabled(w, PlaceOrder(id))
    ensures ModeOk(Next(w, PlaceOrder(id)))
  {
    var w' := Next(w, PlaceOrder(id));
    hide OnTarget, Agree;
    forall symbol | symbol !in Exempt(w'.mode) ensures OnTarget(w'.pm, symbol) {
      PlaceOrderTarget(w, id, symbol);
    }
    assert !w'.mode.Cancelling?;
  }

  lemma PlaceOrderBalanced(w: World, id: string)
    requires Balanced(w) && Enabled(w, PlaceOrder(id))
    ensures Balanced(Next(w, PlaceOrder(id)))
  {
    var w' := Next(w, PlaceOrder(id));
    hide Next, Shares, NetFilled;
    forall symbol
      ensures Position(w'.pm, symbol) + NetFilled(w'.confQ, symbol) == Shares(w'.threads, symbol, Delivered)
    {
      PlaceOrderBalance(w, id, symbol);
    }
  }

  lemma PlaceOrderKeeps(w: World, id: string)
    requires WorldOk(w) && Enabled(w, PlaceOrder(id))
    ensures WorldOk(Next(w, PlaceOrder(id)))
  {
    hide ThreadsOk, Agree, ModeOk, Balanced, Next, Enabled;
    PlaceOrderAgrees(w, id);
    PlaceOrderThreads(w, id);
    PlaceOrderMode(w, id);
    PlaceOrderBalanced(w, id);
  }

  lemma PlaceOrderThreads(w: World, id: string)
    requires WorldOk(w) && Enabled(w, PlaceOrder(id))
    ensures ThreadsOk(Next(w, PlaceOrder(id)))
  {
    var w' := Next(w, PlaceOrder(id));
    hide ThreadOk, QueuedOk, Outstanding, Agree, ModeOk, Balanced, OnTarget, WorkingPosition;
    forall j: nat | j < |w'.threads| ensures ThreadOk(w', j) {
      PlaceOrderThread(w, id, j);
    }
    forall j | 0 <= j < |w'.confQ| ensures QueuedOk(w', w'.confQ[j]) {
      PlaceOrderQueued(w, id, j);
    }
    forall x | x in w'.pm.live ensures Outstanding(w', x) {
      PlaceOrderOutstanding(w, id, x);
    }
  }

  lemma PlaceOrderThread(w: World, id: string, j: nat)
    requires ThreadsOk(w) && Enabled(w, PlaceOrder(id)) && 0 < w.mode.quantity && j <= |w.threads|
    ensures ThreadOk(Next(w, PlaceOrder(id)), j)
  {
    if j < |w.threads| {
      assert ThreadOk(w, j);
    }
  }

  lemma PlaceOrderQueued(w: World, id: string, j: nat)
    requires ThreadsOk(w) && Enabled(w, PlaceOrder(id)) && j < |w.confQ|
    ensures QueuedOk(Next(w, PlaceOrder(id)), w.confQ[j])
  {
    assert QueuedOk(w, w.confQ[j]);
  }

  lemma PlaceOrderOutstanding(w: World, id: string, x: string)
    requires ThreadsOk(w) && Enabled(w, PlaceOrder(id)) && x in Next(w, PlaceOrder(id)).pm.live
    ensures Outstanding(Next(w, PlaceOrder(id)), x)
  {
    var w' := Next(w, PlaceOrder(id));
    if x == id {
      assert w'.threads[|w.threads|].id == x;
    } else {
      var k := Behind(w, x);
      assert w'.threads[k].id == x;
    }
  }

  lemma QuietStepKeeps(w: World, w': World)
    requires WorldOk(w) && w' == w.(mode := w'.mode, targetQ := w'.targetQ)
    requires Exempt(w'.mode) == Exempt(w.mode) && !w.mode.Cancelling? && !w'.mode.Cancelling?
    ensures WorldOk(w')
  {
    SameTermsKeep(w, w');
  }

  /** Every atomic step of every thread keeps the invariant. */
  lemma StepKeeps(w: World, step: Step)
    requires WorldOk(w) && Enabled(w, step)
    ensures WorldOk(Next(w, step))
  {
    match step
    case CheckLoop(i) => ThreadStepKeeps(w, step);
    case DoFill(i, k) => ThreadStepKeeps(w, step);
    case Decide(i) => ThreadStepKeeps(w, step);
    case Report(i) => ThreadStepKeeps(w, step);
    case Forward(i) => ForwardKeeps(w, i);
    case Ask(symbol, amount) => AskKeeps(w, symbol, amount);
    case TakeConf => TakeConfKeeps(w);
    case NoMoreConfs => QuietStepKeeps(w, Next(w, step));
    case TakeTarget => TakeTargetKeeps(w);
    case NoMoreTargets => QuietStepKeeps(w, Next(w, step));
    case Choose(symbol) => ChooseKeeps(w, symbol);
    case CancelOne => CancelOneKeeps(w);
    case PlaceOrder(id) => PlaceOrderKeeps(w, id);
    case EndIteration => QuietStepKeeps(w, Next(w, step));
  }

  lemma AskKeeps(w: World, symbol: string, amount: int)
    requires WorldOk(w)
    ensures WorldOk(Next(w, Ask(symbol, amount)))
  {
    SameTermsKeep(w, Next(w, Ask(symbol, amount)));
  }

  // ---------- Whole runs, in every interleaving ----------

  ghost predicate Possible(w: World, steps: seq<Step>)
    decreases |steps|
  {
    steps != [] ==> Enabled(w, steps[0]) && Possible(Next(w, steps[0]), steps[1..])
  }

  function After(w: World, steps: seq<Step>): World
    requires Possible(w, steps)
    decreases |steps|
  {
    if steps == [] then w else After(Next(w, steps[0]), steps[1..])
  }

  lemma {:induction false} StepsKeep(w: World, steps: seq<Step>)
    requires WorldOk(w) && Possible(w, steps)
    ensures WorldOk(After(w, steps))
    decreases |steps|
  {
    if steps != [] {
      StepKeeps(w, steps[0]);
      StepsKeep(Next(w, steps[0]), steps[1..]);
    }
  }

  lemma EveryInterleaving(steps: seq<Step>)
    requires Possible(START, steps)
    ensures WorldOk(After(START, steps))
  {
    StepsKeep(START, steps);
  }

  /** The ledger: in every reachable state, the manager's position, the queued confirmations, the
      confirmations in hand and the unreported fills add up to all shares ever filled. */
  lemma LedgerBalances(steps: seq<Step>, symbol: string)
    requires Possible(START, steps)
    ensures var w := After(START, steps);
            Position(w.pm, symbol) + NetFilled(w.confQ, symbol)
            + Shares(w.threads, symbol, InHand) + Shares(w.threads, symbol, Unreported)
            == EverFilled(w.threads, symbol)
  {
    EveryInterleaving(steps);
    StagesAddUp(After(START, steps).threads, symbol);
  }

  /** Where a live order is: one thread carries it, the broker knows it exactly while that thread
      runs, and exactly when the thread is done is there a confirmation of it in the queue, and
      then just one. */
  ghost predicate InOnePlace(w: World, id: string, k: nat) {
    && k < |w.threads| && w.threads[k].id == id
    && (forall i :: 0 <= i < |w.threads| && w.threads[i].id == id ==> i == k)
    && (id in w.brokerLive <==> Running(w.threads[k].phase))
    && (w.threads[k].phase.Done? <==> Queued(w.confQ, id))
    && (forall i, j :: 0 <= i < j < |w.confQ| ==> !(w.confQ[i].clientId == id && w.confQ[j].clientId == id))
  }

  ghost predicate Queued(confQ: seq<Confirmation>, id: string) {
    exists j :: 0 <= j < |confQ| && confQ[j].clientId == id
  }

  /** Every live order is in exactly one place. */
  lemma LiveOrderIsInOnePlace(steps: seq<Step>, id: string) returns (k: nat)
    requires Possible(START, steps) && id in After(START, steps).pm.live
    ensures InOnePlace(After(START, steps), id, k)
  {
    EveryInterleaving(steps);
    k := PlaceOf(After(START, steps), id);
  }

  lemma PlaceOf(w: World, id: string) returns (k: nat)
    requires ThreadsOk(w) && id in w.pm.live
    ensures InOnePlace(w, id, k)
  {
    k := Behind(w, id);
    assert ThreadOk(w, k);
    forall j | 0 <= j < |w.confQ| && w.confQ[j].clientId == id
      ensures w.confQ[j].orderId == k && w.threads[k].phase.Done?
    {
      QueuedOfThread(w, j, k);
    }
    if w.threads[k].phase.Done? {
      var j :| 0 <= j < |w.confQ| && w.confQ[j].orderId == k;
      assert QueuedOk(w, w.confQ[j]);
    }
  }

  lemma QueuedOfThread(w: World, j: nat, k: nat)
    requires ThreadsOk(w) && j < |w.confQ| && k < |w.threads| && w.confQ[j].clientId == w.threads[k].id
    ensures w.confQ[j].orderId == k && w.threads[k].phase.Done?
  {
    assert QueuedOk(w, w.confQ[j]);
  }

  /** Whenever the loop comes round, every symbol's working position is on target, and a symbol
      with no live orders has its very position on target. */
  lemma IterationEndsOnTarget(steps: seq<Step>, symbol: string)
    requires Possible(START, steps) && After(START, steps).mode in {Choosing({}), Confirming({})}
    ensures var pm := After(START, steps).pm;
            && OnTarget(pm, symbol)
            && (symbol !in pm.bySymbol ==> Position(pm, symbol) == Target(pm, symbol))
  {
    EveryInterleaving(steps);
    var w := After(START, steps);
    assert symbol !in Exempt(w.mode);
    assert OnTarget(w.pm, symbol);
  }

  // ---------- What was asked for ----------

  /** The amount of the last request for this symbol among the steps, `before` when there is none. */
  function LastAsked(steps: seq<Step>, symbol: string, before: int): int
    decreases |steps|
  {
    if steps == [] then before
    else
      var asked := steps[0].Ask? && steps[0].symbol == symbol;
      LastAsked(steps[1..], symbol, if asked then steps[0].amount else before)
  }

  /** The target of a symbol once the queued updates are taken. */
  function Wanted(w: World, symbol: string): int { LastQueued(w.targetQ, symbol, Target(w.pm, symbol)) }

  lemma StepWants(w: World, step: Step, symbol: string)
    requires Enabled(w, step)
    ensures Wanted(Next(w, step), symbol)
            == if step.Ask? && step.symbol == symbol then step.amount else Wanted(w, symbol)
  {
    if step.Ask? {
      assert (w.targetQ + [(step.symbol, step.amount)])[..|w.targetQ|] == w.targetQ;
    } else if step.TakeTarget? {
      QueuedFirst(w.targetQ, symbol, Target(w.pm, symbol));
    }
  }

  lemma {:induction false} StepsWant(w: World, steps: seq<Step>, symbol: string)
    requires Possible(w, steps)
    ensures Wanted(After(w, steps), symbol) == LastAsked(steps, symbol, Wanted(w, symbol))
    decreases |steps|
  {
    if steps != [] {
      StepWants(w, steps[0], symbol);
      hide Next, Enabled, Wanted;
      StepsWant(Next(w, steps[0]), steps[1..], symbol);
    }
  }

  /** In every interleaving the amount last asked for is the last one queued or, when none is queued,
      the target; and at a loop boundary with nothing queued for the symbol it is what the working
      position has reached, and the position itself when no order is live. */
  lemma AskedIsReached(steps: seq<Step>, symbol: string)
    requires Possible(START, steps)
    ensures var w, asked := After(START, steps), LastAsked(steps, symbol, 0);
            && LastQueued(w.targetQ, symbol, Target(w.pm, symbol)) == asked
            && ((forall i :: 0 <= i < |w.targetQ| ==> w.targetQ[i].0 != symbol) ==>
                  && Target(w.pm, symbol) == asked
                  && (w.mode in {Choosing({}), Confirming({})} ==>
                        && WorkingPosition(w.pm, symbol) == asked
                        && (symbol !in w.pm.bySymbol ==> Position(w.pm, symbol) == asked)))
  {
    var w := After(START, steps);
    StepsWant(START, steps, symbol);
    if forall i :: 0 <= i < |w.targetQ| ==> w.targetQ[i].0 != symbol {
      NothingQueued(w.targetQ, symbol, Target(w.pm, symbol));
    }
    if w.mode in {Choosing({}), Confirming({})} {
      IterationEndsOnTarget(steps, symbol);
    }
  }

  lemma {:induction false} NothingQueued(updates: seq<(string, int)>, symbol: string, before: int)
    requires forall i :: 0 <= i < |updates| ==> updates[i].0 != symbol
    ensures LastQueued(updates, symbol, before) == before
  {
    if updates != [] {
      NothingQueued(updates[..|updates| - 1], symbol, before);
    }
  }

  // ---------- Every round takes what is queued ----------

  function Times(steps: seq<Step>, step: Step): nat {
    if steps == [] then 0 else (if steps[0] == step then 1 else 0) + Times(steps[1..], step)
  }

  /** At least `confs` confirmations and `updates` target updates are still to be taken this round, and
      they are there. */
  ghost predicate Owing(w: World, confs: int, updates: int) {
    && (if w.mode.Confirming? then confs <= |w.confQ| else confs <= 0)
    && (if w.mode.Confirming? || w.mode.Retargeting? then updates <= |w.targetQ| else updates <= 0)
  }

  lemma StepPaysOff(w: World, step: Step, confs: int, updates: int)
    requires Enabled(w, step) && Owing(w, confs, updates)
    ensures Owing(Next(w, step), confs - Times([step], TakeConf), updates - Times([step], TakeTarget))
  {
    assert [step][1..] == [];
  }

  lemma {:induction false} StepsPayOff(w: World, steps: seq<Step>, confs: int, updates: int)
    requires Possible(w, steps) && Owing(w, confs, updates)
    ensures Owing(After(w, steps), confs - Times(steps, TakeConf), updates - Times(steps, TakeTarget))
    decreases |steps|
  {
    hide Owing, Next, Enabled;
    if steps != [] {
      StepPaysOff(w, steps[0], confs, updates);
      assert [steps[0]][1..] == [];
      assert forall x :: Times(steps, x) == Times([steps[0]], x) + Times(steps[1..], x);
      StepsPayOff(Next(w, steps[0]), steps[1..], confs - Times([steps[0]], TakeConf),
                  updates - Times([steps[0]], TakeTarget));
    }
  }

  /** Between two ends of the loop, whatever happens in between, at least as many confirmations and
      updates are taken as were queued at the first: nothing queued then waits any longer. */
  lemma RoundTakesEverything(w: World, steps: seq<Step>)
    requires w.mode == Choosing({}) && Possible(w, [EndIteration] + steps)
    requires After(w, [EndIteration] + steps).mode == Choosing({})
    ensures |w.confQ| <= Times(steps, TakeConf) && |w.targetQ| <= Times(steps, TakeTarget)
  {
    assert ([EndIteration] + steps)[1..] == steps;
    StepsPayOff(Next(w, EndIteration), steps, |w.confQ|, |w.targetQ|);
  }

  // ---------- How fast an order fills ----------

  /** Past the loop test any quantity from 1 to a tenth of the order can be drawn, or 1; the fill adds
      what was drawn, or what is left when that is less. */
  lemma FillAdds(w: World, i: nat, k: nat)
    requires i < |w.threads| && w.threads[i].filled <= w.threads[i].amount
    ensures Enabled(w, DoFill(i, k))
            <==> w.threads[i].phase == AtFill && 1 <= k && (k <= w.threads[i].amount / 10 || k == 1)
    ensures Enabled(w, DoFill(i, k)) ==>
              var t, t' := w.threads[i], Next(w, DoFill(i, k)).threads[i];
              && t' == t.(filled := t'.filled, phase := AtLoop)
              && t'.filled == (if t.filled + k <= t.amount then t.filled + k else t.amount)
  {
  }

  /** No step fills more than a tenth of an order, or one share; one that is being cancelled is not
      filled at all unless its thread is past the loop test. */
  lemma FillsSlowly(w: World, step: Step, i: nat)
    requires Enabled(w, step) && i < |w.threads| && w.threads[i].filled <= w.threads[i].amount
    ensures var t, t' := w.threads[i], Next(w, step).threads[i];
            && t.filled <= t'.filled <= t.amount == t'.amount
            && (t'.filled <= t.filled + t.amount / 10 || t'.filled == t.filled + 1)
            && (t'.filled != t.filled ==> t.phase == AtFill && t'.phase == AtLoop)
            && (t.cancelling ==> t'.cancelling && (t'.phase == AtFill ==> t.phase == AtFill))
  {
  }

  /** An order stands where it is until its thread tests the loop condition. */
  lemma {:induction false} UntestedStands(w: World, steps: seq<Step>, i: nat)
    requires Possible(w, steps) && i < |w.threads| && w.threads[i].phase == AtLoop && CheckLoop(i) !in steps
    ensures i < |After(w, steps).threads|
    ensures var t, t' := w.threads[i], After(w, steps).threads[i]; t' == t.(cancelling := t'.cancelling)
    decreases |steps|
  {
    if steps != [] {
      UntestedStandsOnce(w, steps[0], i);
      hide Next, Enabled;
      UntestedStands(Next(w, steps[0]), steps[1..], i);
    }
  }

  lemma UntestedStandsOnce(w: World, step: Step, i: nat)
    requires Enabled(w, step) && i < |w.threads| && w.threads[i].phase == AtLoop && step != CheckLoop(i)
    ensures var t, t' := w.threads[i], Next(w, step).threads[i]; t' == t.(cancelling := t'.cancelling)
  {
  }

  /** A new order fills nothing before its thread has first tested whether it is being cancelled. */
  lemma NewOrderStands(w: World, id: string, steps: seq<Step>)
    requires Enabled(w, PlaceOrder(id)) && Possible(Next(w, PlaceOrder(id)), steps)
    requires CheckLoop(|w.threads|) !in steps
    ensures |w.threads| < |After(Next(w, PlaceOrder(id)), steps).threads|
    ensures var t := After(Next(w, PlaceOrder(id)), steps).threads[|w.threads|];
            t == Thread(id, w.mode.symbol, w.mode.quantity, w.mode.side, 0, t.cancelling, AtLoop)
  {
    UntestedStands(Next(w, PlaceOrder(id)), steps, |w.threads|);
  }

  /** Once an order is being cancelled at most one more fill happens, and none when its thread has not
      just passed the loop test. */
  lemma {:induction false} CancelStopsFilling(w: World, steps: seq<Step>, i: nat)
    requires Possible(w, steps) && i < |w.threads| && w.threads[i].filled <= w.threads[i].amount
    requires w.threads[i].cancelling
    ensures i < |After(w, steps).threads|
    ensures var t, t' := w.threads[i], After(w, steps).threads[i];
            if t.phase == AtFill then
              t.filled <= t'.filled && (t'.filled <= t.filled + t.amount / 10 || t'.filled == t.filled + 1)
            else t'.filled == t.filled
    decreases |steps|
  {
    if steps != [] {
      FillsSlowly(w, steps[0], i);
      hide Next, Enabled;
      CancelStopsFilling(Next(w, steps[0]), steps[1..], i);
    }
  }

  /** The order is being cancelled and nothing says, or will say, that it was filled. */
  ghost predicate SaysCancelled(w: World, i: nat) {
    && i < |w.threads| && w.threads[i].cancelling
    && (w.threads[i].phase.AtReport? || w.threads[i].phase.AtForward? ==> w.threads[i].phase.status == Cancelled)
    && forall j :: 0 <= j < |w.confQ| && w.confQ[j].orderId == i ==> w.confQ[j].status == Cancelled
  }

  /** A cancel that comes before the final status is decided is answered with Cancelled, even when the
      order had filled up. */
  lemma {:induction false} CancelIsTold(w: World, steps: seq<Step>, i: nat)
    requires Possible(w, steps) && SaysCancelled(w, i)
    ensures SaysCancelled(After(w, steps), i)
    decreases |steps|
  {
    if steps != [] {
      CancelIsToldOnce(w, steps[0], i);
      hide Next, Enabled, SaysCancelled;
      CancelIsTold(Next(w, steps[0]), steps[1..], i);
    }
  }

  lemma CancelIsToldOnce(w: World, step: Step, i: nat)
    requires Enabled(w, step) && SaysCancelled(w, i)
    ensures SaysCancelled(Next(w, step), i)
  {
  }

  /** Every confirmation in the queue is of an order the manager tracks and tells what became of it:
      all it has filled, at the price 100, and Filled or Cancelled; Filled only of a complete order and
      always of one that nobody asked to cancel. */
  lemma NoUnknownConfirmation(steps: seq<Step>, j: nat)
    requires Possible(START, steps) && j < |After(START, steps).confQ|
    ensures var w := After(START, steps); var c := w.confQ[j];
            && 0 <= c.orderId < |w.threads| && c.clientId in w.pm.live
            && var t, o := w.threads[c.orderId], w.pm.live[c.clientId];
               && c == Confirmation(c.orderId, t.id, o.symbol, t.filled, o.side, 100, c.status)
               && c.filled <= o.quantity && c.status in {Filled, Cancelled}
               && (c.status == Filled ==> c.filled == o.quantity)
               && (!t.cancelling ==> c.status == Filled)
  {
    EveryInterleaving(steps);
    var w := After(START, steps);
    assert QueuedOk(w, w.confQ[j]);
    assert ThreadOk(w, w.confQ[j].orderId);
  }
}
