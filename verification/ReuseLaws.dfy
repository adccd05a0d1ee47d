/** When the broker's two id maps stay inverse bijections, call by call and run by run: exactly
    as long as a client id that is still live is used again only by an order that finishes at
    once and finishes the earlier one with it. */
module ReuseLaws {
  import opened Types
  import opened Matching
  import opened Greedy
  import opened Walking
  import opened Reachable
  import opened Priority
  import opened TwoRuns
  import opened Server
  import opened BrokerModel
  import opened FillLaws
  import opened MirrorLaws
  import opened EdgeLaws

  // ---------- Which resting orders an incoming order finishes ----------

  /** A walk finishes exactly the crossing orders that its quantity reaches the end of. */
  lemma {:induction false} WalkFinishes(o: OrderState, theirs: seq<OrderState>, i: nat)
    requires SideOk(o.side.Opposite(), theirs) && i < |theirs|
    ensures theirs[i].id !in IdsOf(Walk(o, theirs).theirs)
            <==> && Crosses(o.side, o.price, theirs[i].price)
                 && Before(theirs, theirs[i].id) + theirs[i].remaining <= o.remaining
    decreases |theirs|
  {
    var id := theirs[i].id;
    if o.IsFilled() || !Crosses(o.side, o.price, theirs[0].price) || o.remaining < theirs[0].remaining {
      var w := Walk(o, theirs);
      assert w.theirs[i].id == id;
      IdsAt(w.theirs, i);
      assert i > 0 ==> !Better(o.side.Opposite(), theirs[i].price, theirs[0].price);
      assert MayRest(o.side.Opposite(), theirs[0]);
    } else if i == 0 {
      NotListed(theirs[1..], id);
      WalkKeeps(o.Fill(theirs[0].remaining), theirs[1..]);
    } else {
      WalkFinishes(o.Fill(theirs[0].remaining), theirs[1..], i - 1);
    }
  }

  /** What adding `o` leaves of an order that rested before. */
  lemma AddFinishes(b: Book, o: OrderState, side: Side, i: nat)
    requires Inv(b) && 0 < o.remaining && o.id !in b.Ids() && i < |b.On(side)|
    ensures var x := b.On(side)[i];
            x.id !in Add(b, o).book.Ids()
            <==> && side == o.side.Opposite() && Crosses(o.side, o.price, x.price)
                 && Before(b.On(side), x.id) + x.remaining <= o.remaining
  {
    var mine, theirs := b.On(o.side), b.On(o.side.Opposite());
    var w := Walk(o, theirs);
    AddIsGreedy(b, o);
    InvFrom(o.side, b);
    IdsAt(b.On(side), i);
    DisjointIds(mine, theirs);
    WalkKeeps(o, theirs);
    WalkKeepsIdentity(o, theirs);
    InsertIds(mine, w.left);
    if side != o.side {
      WalkFinishes(o, theirs, i);
    }
  }

  // ---------- Two orders under one client id ----------

  /** Orders `first` and `second` were both sent under `cid`, which leads to the second until
      either of them finishes. */
  ghost predicate Disputed(br: Broker, cid: string, first: OrderId, second: OrderId) {
    && first != second
    && (cid in br.toBroker ==> br.toBroker[cid] == second && first in br.details && second in br.details)
    && (forall id :: id in br.toClient ==> (br.toClient[id] == cid <==> id == first || id == second))
  }

  lemma FillKeepsDisputed(br: Broker, cid: string, first: OrderId, second: OrderId, f: FillInfo)
    requires Tracked(br) && Disputed(br, cid, first, second)
    requires Heard(br, f)
    ensures Disputed(ProcessFill(br, f), cid, first, second)
  {
    TrackedFill(br, f);
    hide ProcessFill;
  }

  lemma {:induction false} FillsKeepDisputed(br: Broker, cid: string, first: OrderId, second: OrderId,
                                               fills: seq<FillInfo>)
    requires Tracked(br) && Disputed(br, cid, first, second) && Fits(br, fills)
    ensures Disputed(ProcessFills(br, fills), cid, first, second)
    decreases |fills|
  {
    if fills != [] {
      FillKeepsTracked(br, fills[0]);
      FillKeepsDisputed(br, cid, first, second, fills[0]);
      FitsOn(br, fills);
      hide Tracked, Disputed, ProcessFill;
      FillsKeepDisputed(ProcessFill(br, fills[0]), cid, first, second, fills[1..]);
    }
  }

  lemma FinishKeepsDisputed(br: Broker, cid: string, first: OrderId, d: Details, status: FinalStatus)
    requires Disputed(br, cid, first, d.brokerId) && SettledRecord(br, d, status) && d.clientId == cid
    ensures Disputed(Finish(br, d, status), cid, first, d.brokerId)
  {
  }

  lemma FinishKeepsPaired(br: Broker, but: set<string>, d: Details, status: FinalStatus)
    requires Tracked(br) && Paired(br, but) && SettledRecord(br, d, status)
    ensures Paired(Finish(br, d, status), but)
  {
    if d.brokerId in br.details {
      assert Live(br, d.brokerId);
    }
  }

  /** With two orders under one client id the maps are inverse exactly when both have finished. */
  lemma DisputedLinks(br: Broker, cid: string, first: OrderId, second: OrderId)
    requires Tracked(br) && Paired(br, {cid}) && Disputed(br, cid, first, second)
    ensures Linked(br) <==> first !in br.details && second !in br.details
  {
  }

  // ---------- The calls ----------

  /** Both the order that is live under the client id and the new one finish in this call. The
      earlier order has to rest on the other side within the price limit, the quantity has to
      reach its end in priority order, and the new order must not leave anything to rest. */
  predicate BothFinish(s: System, c: Call)
    requires c.Place? && c.price.Some?
    requires c.clientId in s.broker.toBroker && s.broker.toBroker[c.clientId] in s.broker.details
  {
    var first := s.broker.details[s.broker.toBroker[c.clientId]];
    var theirs := s.book.On(c.side.Opposite());
    && first.side == c.side.Opposite() && Crosses(c.side, c.price.value, first.price)
    && Before(theirs, first.brokerId) + first.quantity - first.filled <= c.quantity
    && (c.kind.FillAndKill? || c.quantity <= Resting(theirs, Reach(c.side, c.price.value)))
  }

  /** `BothFinish` says what it is meant to say. */
  lemma BothFinishMeans(s: System, c: Call)
    requires SystemOk(s) && Sound(s, c)
    requires c.clientId in s.broker.toBroker && s.broker.toBroker[c.clientId] in s.broker.details
    ensures var b' := Submitting(s, c).book;
            BothFinish(s, c)
            <==> s.broker.toBroker[c.clientId] !in b'.Ids() && NewDetails(s.broker, c).brokerId !in b'.Ids()
  {
    var b, br, d := s.book, s.broker, NewDetails(s.broker, c);
    var first := br.toBroker[c.clientId];
    AckedTracks(br, d);
    PricedSubmission(s, c);
    var side, i := ListedAt(b, first);
    hide Submitting, Tracked, Inv, Add, Resting, Before, Crosses, Fills;
    assert RecordOf(br.details[first], b.On(side)[i]);
    AddFinishes(b, OrderOf(d), side, i);
    NewRests(b, OrderOf(d));
  }

  lemma NewRests(b: Book, o: OrderState)
    requires Inv(b) && 0 < o.remaining <= o.initial && o.id !in b.Ids()
    ensures o.id in Add(b, o).book.Ids()
            <==> o.kind.GoodTillCancel? && Resting(b.On(o.side.Opposite()), Reach(o.side, o.price)) < o.remaining
  {
    AddKeepsInv(b, o);
    AddVolume(b, o);
    AddAccount(b, o, o.id);
    LeftIsPositive(Add(b, o).book, o.id);
  }

  /** The exact condition for a submission under a live client id: the maps stay inverse
      bijections if and only if both orders finish in the call. */
  lemma LiveReuse(s: System, c: Call)
    requires SystemOk(s) && Linked(s.broker) && Sound(s, c)
    requires c.clientId in s.broker.toBroker
    ensures s.broker.toBroker[c.clientId] in s.broker.details
    ensures Linked(Submitting(s, c).broker) <==> BothFinish(s, c)
  {
    var br, br' := s.broker, Submitting(s, c).broker;
    var cid, first, d := c.clientId, br.toBroker[c.clientId], NewDetails(br, c);
    LeadsTo(br, cid);
    ReuseDisputes(s, c);
    PricedSubmission(s, c);
    BothFinishMeans(s, c);
    hide Submitting, BothFinish, Disputed, Linked, Tracked, Paired, Inv;
    DisputedLinks(br', cid, first, d.brokerId);
  }

  lemma ReuseDisputes(s: System, c: Call)
    requires SystemOk(s) && Linked(s.broker) && Sound(s, c)
    requires c.clientId in s.broker.toBroker
    ensures var br' := Submitting(s, c).broker;
            && Paired(br', {c.clientId})
            && Disputed(br', c.clientId, s.broker.toBroker[c.clientId], NewDetails(s.broker, c).brokerId)
  {
    var b, br, d := s.book, s.broker, NewDetails(s.broker, c);
    var first, r := br.toBroker[c.clientId], Add(b, OrderOf(d));
    var br1, status := Acked(br, d), StatusOf(d.kind, r.left);
    LeadsTo(br, c.clientId);
    AckedDisputes(br, d);
    SubmissionFills(b, br, d);
    SettlesRecord(b, br, d);
    AddAnswers(s, c);
    hide Submitting, Linked, Tracked, Paired, Disputed, Fills, ProcessFills, Finish, Inv, Mirror, SettledRecord, Fits;
    FillsKeepPaired(br1, {c.clientId}, Fills(r.trades));
    FillsKeepDisputed(br1, c.clientId, first, d.brokerId, Fills(r.trades));
    var br2 := ProcessFills(br1, Fills(r.trades));
    FinishKeepsPaired(br2, {c.clientId}, d, status);
    FinishKeepsDisputed(br2, c.clientId, first, d, status);
  }

  lemma AckedDisputes(br: Broker, d: Details)
    requires Linked(br) && NewOrder(br, d) && d.clientId in br.toBroker
    ensures Paired(Acked(br, d), {d.clientId})
    ensures Disputed(Acked(br, d), d.clientId, br.toBroker[d.clientId], d.brokerId)
  {
    AckedTracks(br, d);
  }

  lemma AckedPairs(br: Broker, d: Details)
    requires Linked(br) && NewOrder(br, d) && d.clientId !in br.toBroker
    ensures Linked(Acked(br, d))
  {
    AckedTracks(br, d);
  }

  /** A submission under an id that is not live keeps the maps inverse. */
  lemma FreeIdLinks(s: System, c: Call)
    requires SystemOk(s) && Linked(s.broker) && Sound(s, c)
    requires c.clientId !in s.broker.toBroker
    ensures Linked(Submitting(s, c).broker)
  {
    var b, br, d := s.book, s.broker, NewDetails(s.broker, c);
    var r, br1 := Add(b, OrderOf(d)), Acked(br, d);
    AckedPairs(br, d);
    SubmissionFills(b, br, d);
    SettlesRecord(b, br, d);
    PricedSubmission(s, c);
    AddAnswers(s, c);
    hide Submitting, Tracked, Paired, Fills, ProcessFills, Finish, Inv, Mirror, SettledRecord, Fits;
    FillsKeepPaired(br1, {}, Fills(r.trades));
    FinishKeepsPaired(ProcessFills(br1, Fills(r.trades)), {}, d, StatusOf(d.kind, r.left));
  }

  /** A call that uses a live client id again, if at all, only to finish both orders. */
  predicate Careful(s: System, c: Call) {
    (c.Place? && c.price.Some? && c.clientId in s.broker.toBroker
     && s.broker.toBroker[c.clientId] in s.broker.details) ==> BothFinish(s, c)
  }

  // ---------- Calls that leave nothing ----------

  lemma NothingLinks(s: System, c: Call, s': System)
    requires SystemOk(s) && Linked(s.broker) && LeavesNothing(s, c, s')
    ensures Linked(s'.broker) <==> c.clientId !in s.broker.toBroker
  {
    LeavingNothingKeeps(s, c, s');
    hide Mirror, Inv;
    if c.clientId in s.broker.toBroker {
      LeadsTo(s.broker, c.clientId);
      assert s'.broker.toClient[s.broker.toBroker[c.clientId]] == c.clientId;
    } else {
      assert s'.broker.toBroker == s.broker.toBroker;
    }
  }

  lemma ZeroFinishesNothing(s: System, c: Call)
    requires SystemOk(s) && c.Place? && c.price.Some? && c.quantity == 0
    requires c.clientId in s.broker.toBroker && s.broker.toBroker[c.clientId] in s.broker.details
    ensures !BothFinish(s, c)
  {
    var first := s.broker.toBroker[c.clientId];
    var side, i := ListedAt(s.book, first);
    assert RecordOf(s.broker.details[first], s.book.On(side)[i]);
    assert MayRest(side, s.book.On(side)[0]);
  }

  lemma ZeroLinks(s: System, c: Call)
    requires SystemOk(s) && Linked(s.broker) && c.Place? && c.price.Some? && c.quantity == 0 && Harmless(s, c)
    ensures Linked(Submitting(s, c).broker) <==> Careful(s, c)
  {
    hide SystemOk, Linked, Submitting, CanMatch, BothFinish;
    ZeroLeavesNothing(s, c);
    NothingLinks(s, c, Submitting(s, c));
    if c.clientId in s.broker.toBroker {
      TrackedClient(s, c.clientId);
      ZeroFinishesNothing(s, c);
    }
  }

  lemma TrackedClient(s: System, cid: string)
    requires SystemOk(s) && cid in s.broker.toBroker
    ensures s.broker.toBroker[cid] in s.broker.details
  {
    LeadsTo(s.broker, cid);
  }

  /** One call of any kind that keeps broker and book in step. */
  lemma CallLinks(s: System, c: Call)
    requires SystemOk(s) && Linked(s.broker) && Harmless(s, c)
    ensures Linked(Calling(s, c).broker) <==> Careful(s, c)
  {
    hide SystemOk, Submitting, Cancelling, CanMatch, BothFinish, Linked;
    if c.Recall? {
      RecallLinks(s, c.clientId);
    } else if c.price.None? {
      RejectionLinks(s, c);
    } else if c.quantity == 0 {
      ZeroLinks(s, c);
    } else if c.clientId in s.broker.toBroker {
      LiveReuse(s, c);
    } else {
      FreeIdLinks(s, c);
    }
  }

  lemma RejectionLinks(s: System, c: Call)
    requires SystemOk(s) && Linked(s.broker) && c.Place? && c.price.None?
    ensures Linked(Submitting(s, c).broker)
  {
    SendTracks(s.broker, Rejection(c.clientId, c.symbol, c.side));
  }

  lemma RecallLinks(s: System, cid: string)
    requires SystemOk(s) && Linked(s.broker)
    ensures Linked(Cancelling(s, cid).broker)
  {
    Cancellation(s, cid);
    if cid in s.broker.toBroker {
      LeadsTo(s.broker, cid);
    }
  }

  const FIVE_AT_TEN := Place("a", "X", 5, Buy, GoodTillCancel, Some(10))

  function RestingFive(id: OrderId): OrderState { OrderState(id, Buy, 10, GoodTillCancel, 5, 5) }

  lemma FirstRests()
    ensures var s1 := Submitting(System(EMPTY, NEW_BROKER), FIVE_AT_TEN);
            && SystemOk(s1) && Linked(s1.broker)
            && s1.book == Book([RestingFive(1)], []) && s1.broker.counter == 1
            && s1.broker.toBroker == map["a" := 1] && 1 in s1.broker.details && s1.broker.details[1].side == Buy
  {
    var s0 := System(EMPTY, NEW_BROKER);
    hide Submitting;
    FreeIdLinks(s0, FIVE_AT_TEN);
    PricedSubmission(s0, FIVE_AT_TEN);
    RestsAtOnce(s0, FIVE_AT_TEN);
  }

  lemma SecondRests(s1: System)
    requires SystemOk(s1) && Linked(s1.broker)
    requires s1.book == Book([RestingFive(1)], []) && s1.broker.counter == 1 && s1.broker.toBroker == map["a" := 1]
    ensures var s2 := Submitting(s1, FIVE_AT_TEN);
            SystemOk(s2) && s2.broker.toBroker == map["a" := 2] && s2.book.Ids() == {1, 2}
  {
    hide Submitting, SystemOk, Linked;
    PricedSubmission(s1, FIVE_AT_TEN);
    RestsAtOnce(s1, FIVE_AT_TEN);
    InsertIds([RestingFive(1)], RestingFive(2));
  }

  /** A run that fails: two orders to buy under one id. The second takes the id over, and when
      it is cancelled no client id leads to the first, which rests for good. */
  lemma TwoBuysUnderOneId()
    ensures var s1 := Submitting(System(EMPTY, NEW_BROKER), FIVE_AT_TEN);
            var s2 := Submitting(s1, FIVE_AT_TEN);
            && Linked(s1.broker) && !Linked(s2.broker)
            && Cancelling(s2, "a").broker.toBroker == map[] && Cancelling(s2, "a").book.Ids() == {1}
  {
    var s1 := Submitting(System(EMPTY, NEW_BROKER), FIVE_AT_TEN);
    var s2 := Submitting(s1, FIVE_AT_TEN);
    hide Submitting, SystemOk, Cancelling, Linked;
    FirstRests();
    LiveReuse(s1, FIVE_AT_TEN);
    SecondRests(s1);
    OneLeaves(s2);
  }

  lemma OneLeaves(s: System)
    requires SystemOk(s) && s.broker.toBroker == map["a" := 2] && s.book.Ids() == {1, 2}
    ensures Cancelling(s, "a").broker.toBroker == map[] && Cancelling(s, "a").book.Ids() == {1}
  {
    hide Cancelling;
    Cancellation(s, "a");
    CancelBoth(s.book, 2);
  }

  // ---------- Whole runs ----------

  ghost predicate CarefulRun(s: System, calls: seq<Call>)
    decreases |calls|
  {
    calls != [] ==> Careful(s, calls[0]) && CarefulRun(Calling(s, calls[0]), calls[1..])
  }

  /** Broker and book are in step and the maps inverse, now and after each of the calls. */
  ghost predicate AlwaysLinked(s: System, calls: seq<Call>)
    decreases |calls|
  {
    InStep(s) && Linked(s.broker) && (calls != [] ==> AlwaysLinked(Calling(s, calls[0]), calls[1..]))
  }

  lemma {:induction false} CallsLink(s: System, calls: seq<Call>)
    requires SystemOk(s) && Linked(s.broker)
    ensures AlwaysLinked(s, calls) <==> HarmlessRun(s, calls) && CarefulRun(s, calls)
    decreases |calls|
  {
    if calls != [] {
      var s1 := Calling(s, calls[0]);
      CallExactly(s, calls[0]);
      if SystemOk(s1) {
        CallLinks(s, calls[0]);
      }
      hide SystemOk, InStep, Linked, Calling, Harmless, Careful;
      if SystemOk(s1) && Linked(s1.broker) {
        CallsLink(s1, calls[1..]);
      }
    }
  }

  /** Over every run of a new broker on an empty book, whatever is called: the id maps are
      inverse bijections over the resting orders all the time if and only if every call is
      harmless and every reuse of a live id finishes both orders. */
  lemma EveryRunLinks(calls: seq<Call>)
    ensures var s := System(EMPTY, NEW_BROKER);
            AlwaysLinked(s, calls) <==> HarmlessRun(s, calls) && CarefulRun(s, calls)
  {
    CallsLink(System(EMPTY, NEW_BROKER), calls);
  }
}
