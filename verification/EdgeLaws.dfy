/** Which calls keep broker and book in step: all but the submissions of quantity 0 that come to
    rest and those whose trades name an order under the empty client id. */
module EdgeLaws {
  import opened Types
  import opened Matching
  import opened Greedy
  import opened Walking
  import opened Reachable
  import opened Priority
  import opened Server
  import opened Confirmations
  import opened BrokerModel
  import opened FillLaws
  import opened MirrorLaws

  // ---------- Submissions that leave nothing ----------

  /** The order is gone again, its client id leads nowhere, and nobody was told anything. */
  ghost predicate LeavesNothing(s: System, c: Call, s': System) {
    && s'.book == s.book
    && s'.broker == s.broker.(counter := s.broker.counter + 1, toBroker := s.broker.toBroker - {c.clientId})
  }

  lemma LeavingNothingKeeps(s: System, c: Call, s': System)
    requires SystemOk(s) && LeavesNothing(s, c, s')
    ensures SystemOk(s')
  {
    forall x | x in s'.broker.details ensures Live(s'.broker, x) {
      assert Live(s.broker, x);
    }
  }

  /** Fills of nothing are ignored. */
  lemma {:induction false} EmptyFills(br: Broker, fills: seq<FillInfo>)
    requires forall i :: 0 <= i < |fills| ==> fills[i].tradedQuantity == 0
    ensures ProcessFills(br, fills) == br
    decreases |fills|
  {
    if fills != [] {
      EmptyFills(br, fills[1..]);
    }
  }

  /** The next broker id is new to both. */
  lemma NextIsNew(s: System)
    requires SystemOk(s)
    ensures s.broker.counter + 1 !in s.broker.details && s.broker.counter + 1 !in s.book.Ids()
    ensures s.broker.counter + 1 !in s.broker.toClient
  {
    forall id | id in s.broker.details ensures id != s.broker.counter + 1 {
      assert Live(s.broker, id);
    }
  }

  /** Storing a new record and clearing it away again. */
  lemma AckedThenCleared(br: Broker, d: Details)
    requires d.brokerId == br.counter + 1 && d.brokerId !in br.details && d.brokerId !in br.toClient
    ensures Acked(br, d).Cleanup(d.clientId, d.brokerId)
            == br.(counter := br.counter + 1, toBroker := br.toBroker - {d.clientId})
  {
    var br' := Acked(br, d).Cleanup(d.clientId, d.brokerId);
    assert br'.toBroker == br.toBroker - {d.clientId};
    assert br'.toClient == br.toClient;
    assert br'.details == br.details;
  }

  lemma ZeroLeavesNothing(s: System, c: Call)
    requires SystemOk(s) && c.Place? && c.price.Some? && c.quantity == 0
    requires c.kind.FillAndKill? || CanMatch(s.book, c.side, c.price.value)
    ensures LeavesNothing(s, c, Submitting(s, c))
  {
    var br, d := s.broker, NewDetails(s.broker, c);
    var trades := Add(s.book, OrderOf(d)).trades;
    NextIsNew(s);
    AddAnswers(s, c);
    AddZero(s.book, OrderOf(d));
    hide Add, Submitting, CanMatch, Inv, Mirror, Tracked;
    forall j | 0 <= j < |Fills(trades)| ensures Fills(trades)[j].tradedQuantity == 0 {
      FillsAt(trades, j);
    }
    EmptyFills(Acked(br, d), Fills(trades));
    AckedThenCleared(br, d);
  }

  /** A submission of quantity 0, under any client id. */
  lemma ZeroExactly(s: System, c: Call)
    requires SystemOk(s) && c.Place? && c.price.Some? && c.quantity == 0
    ensures SystemOk(Submitting(s, c)) <==> c.kind.FillAndKill? || CanMatch(s.book, c.side, c.price.value)
    ensures InStep(Submitting(s, c)) <==> c.kind.FillAndKill? || CanMatch(s.book, c.side, c.price.value)
  {
    if c.kind.FillAndKill? || CanMatch(s.book, c.side, c.price.value) {
      ZeroLeavesNothing(s, c);
      LeavingNothingKeeps(s, c, Submitting(s, c));
    } else {
      ZeroIsForgotten(s, c);
    }
  }

  lemma ZeroSubmission(s: System, c: Call)
    requires SystemOk(s) && c.Place? && c.price.Some? && c.quantity == 0
    requires c.kind.GoodTillCancel? && !CanMatch(s.book, c.side, c.price.value)
    ensures var br, o := s.broker, OrderOf(NewDetails(s.broker, c));
            Submitting(s, c) == System(s.book.With(c.side, Insert(s.book.On(c.side), o)),
                                       br.(counter := br.counter + 1, toBroker := br.toBroker - {c.clientId}))
  {
    hide Add, Submitting, CanMatch, Inv, Mirror, Tracked, Insert, Finish, ProcessFills, Acked, IdsOf;
    NextIsNew(s);
    AddAnswers(s, c);
    AddZeroRests(s.book, OrderOf(NewDetails(s.broker, c)));
    FilledAtOnce(s.broker, NewDetails(s.broker, c));
  }

  /** An order of quantity 0 that comes to rest is filled for the broker and stays in the book. */
  lemma ZeroIsForgotten(s: System, c: Call)
    requires SystemOk(s) && c.Place? && c.price.Some? && c.quantity == 0
    requires c.kind.GoodTillCancel? && !CanMatch(s.book, c.side, c.price.value)
    ensures var s' := Submitting(s, c);
            s.broker.counter + 1 in s'.book.Ids() && s.broker.counter + 1 !in s'.broker.details
  {
    hide Submitting, CanMatch, SystemOk, Insert, IdsOf;
    NextIsNew(s);
    ZeroSubmission(s, c);
    InsertIds(s.book.On(c.side), OrderOf(NewDetails(s.broker, c)));
  }

  lemma FilledAtOnce(br: Broker, d: Details)
    requires d.brokerId == br.counter + 1 && d.brokerId !in br.details && d.brokerId !in br.toClient
    ensures Finish(ProcessFills(Acked(br, d), []), d, BookFilled)
            == br.(counter := br.counter + 1, toBroker := br.toBroker - {d.clientId})
  {
    AckedThenCleared(br, d);
  }

  /** A quantity of 0 comes to rest on the empty book. */
  lemma ZeroRests()
    ensures var s := Submitting(System(EMPTY, NEW_BROKER), Place("a", "X", 0, Buy, GoodTillCancel, Some(10)));
            !InStep(s)
  {
    ZeroExactly(System(EMPTY, NEW_BROKER), Place("a", "X", 0, Buy, GoodTillCancel, Some(10)));
  }

  // ---------- Trades of an order under the empty client id ----------

  /** The record of an order under the empty client id is never touched by fills. */
  lemma {:induction false} UnnamedStays(br: Broker, fills: seq<FillInfo>, id: OrderId)
    requires id in br.details && id in br.toClient && br.toClient[id] == ""
    ensures var br' := ProcessFills(br, fills);
            id in br'.details && br'.details[id] == br.details[id] && id in br'.toClient && br'.toClient[id] == ""
    decreases |fills|
  {
    if fills != [] {
      UnnamedStaysOnce(br, fills[0], id);
      hide ProcessFill;
      UnnamedStays(ProcessFill(br, fills[0]), fills[1..], id);
    }
  }

  lemma UnnamedStaysOnce(br: Broker, f: FillInfo, id: OrderId)
    requires id in br.details && id in br.toClient && br.toClient[id] == ""
    ensures var br' := ProcessFill(br, f);
            id in br'.details && br'.details[id] == br.details[id] && id in br'.toClient && br'.toClient[id] == ""
  {
  }

  /** A resting order under the empty client id that a submission trades with: the book takes the
      trade off it, the broker does not. */
  lemma ReachedUnnamed(s: System, c: Call, i: nat)
    requires SystemOk(s) && c.Place? && c.price.Some? && 0 < c.quantity
    requires var theirs := s.book.On(c.side.Opposite());
             && i < |theirs| && Reached(theirs, i, NewDetails(s.broker, c))
             && theirs[i].id in s.broker.details && s.broker.details[theirs[i].id].clientId == ""
    ensures !InStep(Submitting(s, c))
  {
    var b, br, d := s.book, s.broker, NewDetails(s.broker, c);
    var o, id := OrderOf(d), b.On(c.side.Opposite())[i].id;
    NextIsNew(s);
    AddAnswers(s, c);
    assert Live(br, id);
    UnnamedStays(Acked(br, d), Fills(Add(b, o).trades), id);
    StaysToTheEnd(ProcessFills(Acked(br, d), Fills(Add(b, o).trades)), d, StatusOf(d.kind, Add(b, o).left), id);
    AddReaches(b, o, i);
    AddAccount(b, o, id);
    RecordLeft(b, br, id);
    hide Submitting, Add, Fills, ProcessFills, Finish, Inv, Mirror, Tracked, Reached, Left, Traded;
    var s' := Submitting(s, c);
    AddKeepsInv(b, o);
    if InStep(s') {
      RecordLeft(s'.book, s'.broker, id);
    }
  }

  lemma StaysToTheEnd(br: Broker, d: Details, status: FinalStatus, id: OrderId)
    requires id in br.details && id != d.brokerId
    ensures var br' := Finish(br, d, status); id in br'.details && br'.details[id] == br.details[id]
  {
  }

  // ---------- A new order under the empty client id ----------

  /** `br` with the record of an order under the empty client id. */
  function WithUnnamed(br: Broker, d: Details): Broker {
    br.(toBroker := br.toBroker["" := d.brokerId], toClient := br.toClient[d.brokerId := ""],
        details := br.details[d.brokerId := d])
  }

  function Others(fills: seq<FillInfo>, id: OrderId): seq<FillInfo> {
    if fills == [] then []
    else (if fills[0].orderIdFilled == id then [] else [fills[0]]) + Others(fills[1..], id)
  }

  lemma PutBeside(br: Broker, d: Details, id: OrderId, x: Details, c: Confirmation)
    requires id != d.brokerId
    ensures WithUnnamed(br, d).Put(id, x).Send(c) == WithUnnamed(br.Put(id, x).Send(c), d)
  {
    assert WithUnnamed(br, d).details[id := x] == br.details[id := x][d.brokerId := d];
  }

  lemma RemoveBeside<K, V>(m: map<K, V>, k: K, v: V, x: K)
    requires k != x
    ensures m[k := v] - {x} == (m - {x})[k := v]
  {
  }

  lemma CleanupBeside(br: Broker, d: Details, id: OrderId, cid: string, c: Confirmation)
    requires id != d.brokerId && cid != ""
    ensures WithUnnamed(br, d).Send(c).Cleanup(cid, id) == WithUnnamed(br.Send(c).Cleanup(cid, id), d)
  {
    RemoveBeside(br.toBroker, "", d.brokerId, cid);
    RemoveBeside(br.toClient, d.brokerId, "", id);
    RemoveBeside(br.details, d.brokerId, d, id);
  }

  /** Fills of the unnamed order are ignored, all others are processed as without it. */
  lemma UnnamedFill(br: Broker, d: Details, f: FillInfo)
    requires Tracked(br) && d.brokerId !in br.details && f.tradedQuantity > 0
    requires f.orderIdFilled == d.brokerId || Heard(br, f)
    ensures ProcessFill(WithUnnamed(br, d), f)
            == if f.orderIdFilled == d.brokerId then WithUnnamed(br, d) else WithUnnamed(ProcessFill(br, f), d)
  {
    if f.orderIdFilled != d.brokerId {
      var id := f.orderIdFilled;
      var x := br.details[id];
      TrackedFill(br, f);
      KnownFill(WithUnnamed(br, d), f);
      assert WithUnnamed(br, d).details[id] == x;
      hide ProcessFill, Tracked, WithUnnamed;
      if x.filled + f.tradedQuantity >= x.quantity {
        CleanupBeside(br, d, id, x.clientId, FillNotice(br, f));
      } else {
        PutBeside(br, d, id, x.(filled := x.filled + f.tradedQuantity, status := Working), FillNotice(br, f));
      }
    }
  }

  /** One fill of another order. */
  lemma UnnamedStep(br: Broker, d: Details, others: seq<FillInfo>)
    requires Tracked(br) && d.brokerId !in br.details && others != [] && Fits(br, others)
    ensures var br1 := ProcessFill(br, others[0]);
            && Tracked(br1) && d.brokerId !in br1.details && Fits(br1, others[1..])
            && ProcessFill(WithUnnamed(br, d), others[0]) == WithUnnamed(br1, d)
  {
    UnnamedFill(br, d, others[0]);
    FillKeepsTracked(br, others[0]);
    FitsOn(br, others);
    TrackedFill(br, others[0]);
    hide ProcessFill, WithUnnamed, Fits, Tracked, Live;
  }

  lemma OthersFirst(fills: seq<FillInfo>, id: OrderId)
    requires fills != []
    ensures var others, rest := Others(fills, id), Others(fills[1..], id);
            if fills[0].orderIdFilled == id then others == rest
            else others != [] && others[0] == fills[0] && others[1..] == rest
  {
  }

  lemma {:induction false} UnnamedFills(br: Broker, d: Details, fills: seq<FillInfo>)
    requires Tracked(br) && d.brokerId !in br.details && Fits(br, Others(fills, d.brokerId))
    requires forall i :: 0 <= i < |fills| ==> fills[i].tradedQuantity > 0
    ensures ProcessFills(WithUnnamed(br, d), fills) == WithUnnamed(ProcessFills(br, Others(fills, d.brokerId)), d)
    decreases |fills|
  {
    if fills != [] {
      OthersFirst(fills, d.brokerId);
      hide ProcessFill, WithUnnamed, Fits, Tracked, Others;
      if fills[0].orderIdFilled == d.brokerId {
        UnnamedFill(br, d, fills[0]);
        UnnamedFills(br, d, fills[1..]);
      } else {
        UnnamedStep(br, d, Others(fills, d.brokerId));
        UnnamedFills(ProcessFill(br, fills[0]), d, fills[1..]);
      }
    } else {
      assert Others(fills, d.brokerId) == [];
    }
  }

  lemma {:induction false} OthersSum(fills: seq<FillInfo>, gone: OrderId, side: Side)
    requires forall i :: 0 <= i < |fills| && fills[i].orderIdFilled == gone ==> fills[i].side == side
    ensures SignedFills(Others(fills, gone)) == SignedFills(fills) - FilledIn(fills, gone) * side.Sign()
  {
    if fills != [] {
      OthersFirst(fills, gone);
      OthersSum(fills[1..], gone, side);
    }
  }

  lemma {:induction false} OthersFilled(fills: seq<FillInfo>, gone: OrderId, id: OrderId)
    requires id != gone
    ensures FilledIn(Others(fills, gone), id) == FilledIn(fills, id)
  {
    if fills != [] {
      OthersFirst(fills, gone);
      OthersFilled(fills[1..], gone, id);
    }
  }

  lemma {:induction false} OthersAt(fills: seq<FillInfo>, gone: OrderId, i: nat) returns (j: nat)
    requires i < |Others(fills, gone)|
    ensures j < |fills| && fills[j] == Others(fills, gone)[i] && fills[j].orderIdFilled != gone
  {
    OthersFirst(fills, gone);
    if fills[0].orderIdFilled != gone && i == 0 {
      j := 0;
    } else {
      j := OthersAt(fills[1..], gone, if fills[0].orderIdFilled == gone then i else i - 1);
      j := j + 1;
    }
  }

  ghost predicate OthersNamed(br: Broker, d: Details, fills: seq<FillInfo>) {
    forall i :: 0 <= i < |fills| && fills[i].orderIdFilled != d.brokerId && fills[i].orderIdFilled in br.details ==>
      br.details[fills[i].orderIdFilled].clientId != ""
  }

  /** The fills of all other orders fit without the new one. */
  lemma OthersFit(br: Broker, d: Details, fills: seq<FillInfo>)
    requires Sized(WithUnnamed(br, d), fills) && d.brokerId !in br.details && OthersNamed(br, d, fills)
    ensures Fits(br, Others(fills, d.brokerId))
    ensures SignedFills(Others(fills, d.brokerId)) == SignedFills(fills) - FilledIn(fills, d.brokerId) * d.side.Sign()
  {
    var others, br1 := Others(fills, d.brokerId), WithUnnamed(br, d);
    forall i | 0 <= i < |fills| && fills[i].orderIdFilled == d.brokerId ensures fills[i].side == d.side {
      assert fills[i].orderIdFilled in br1.details;
    }
    OthersSum(fills, d.brokerId, d.side);
    forall i | 0 <= i < |others|
      ensures others[i].tradedQuantity > 0 && others[i].orderIdFilled in br.details
      ensures br.details[others[i].orderIdFilled].side == others[i].side
      ensures br.details[others[i].orderIdFilled].price == others[i].price
      ensures br.details[others[i].orderIdFilled].clientId != ""
    {
      var j := OthersAt(fills, d.brokerId, i);
      assert fills[j].orderIdFilled in br1.details;
    }
    forall id | id in br.details ensures br.details[id].filled + FilledIn(others, id) <= br.details[id].quantity {
      OthersFilled(fills, d.brokerId, id);
      assert id in br1.details && br1.details[id] == br.details[id];
    }
  }

  lemma CountedTracks(br: Broker)
    requires Tracked(br)
    ensures Tracked(br.(counter := br.counter + 1))
  {
    forall x | x in br.details ensures Live(br.(counter := br.counter + 1), x) {
      assert Live(br, x);
    }
  }

  lemma UnnamedRegistered(s: System, d: Details)
    requires SystemOk(s) && d.clientId == "" && d.brokerId == s.broker.counter + 1 && d.filled == 0 < d.quantity
    ensures var br1 := WithUnnamed(s.broker.(counter := s.broker.counter + 1), d.(status := Acknowledged));
            && Acked(s.broker, d) == br1 && Registered(s.book, s.broker, d, br1)
            && d.brokerId !in s.broker.details && d.brokerId !in s.book.Ids()
  {
    var d1 := d.(status := Acknowledged);
    NextIsNew(s);
    hide Inv, Tracked, Mirror, SignedTotal;
    assert s.broker.details[d.brokerId := d][d.brokerId := d1] == s.broker.details[d.brokerId := d1];
  }

  lemma PositiveFills(br: Broker, fills: seq<FillInfo>)
    requires Sized(br, fills)
    ensures forall i :: 0 <= i < |fills| ==> fills[i].tradedQuantity > 0
  {
  }

  /** All signed fills but those of the unnamed order are reported. */
  lemma UnnamedUnreported(br: Broker, d: Details, fills: seq<FillInfo>) returns (named: Broker)
    requires Tracked(br) && d.brokerId !in br.details && Sized(WithUnnamed(br, d), fills) && OthersNamed(br, d, fills)
    ensures ProcessFills(WithUnnamed(br, d), fills) == WithUnnamed(named, d) && d.brokerId !in named.details
    ensures SignedTotal(named.sent)
            == SignedTotal(br.sent) + SignedFills(fills) - FilledIn(fills, d.brokerId) * d.side.Sign()
  {
    var others := Others(fills, d.brokerId);
    PositiveFills(WithUnnamed(br, d), fills);
    hide ProcessFills, Tracked, WithUnnamed, Fits, Sized, OthersNamed;
    OthersFit(br, d, fills);
    UnnamedFills(br, d, fills);
    FillsKeep(br, others);
    named := ProcessFills(br, others);
    assert FilledUpAt(br, others, named, d.brokerId);
  }

  lemma UnnamedTraded(b: Book, o: OrderState)
    requires Inv(b) && 0 < o.remaining && o.id !in b.Ids()
    ensures FilledIn(Fills(Add(b, o).trades), o.id) == o.remaining - Add(b, o).left
  {
    AddAccount(b, o, o.id);
    FilledIsTraded(Add(b, o).trades, o.id);
  }

  lemma AddNamesOthers(b: Book, br: Broker, d: Details, br1: Broker)
    requires Inv(b) && OrderOf(d).id !in b.Ids() && 0 < d.quantity && ReachesNamed(b, br, d)
    requires br1.details == br.details
    ensures OthersNamed(br1, d, Fills(Add(b, OrderOf(d)).trades))
  {
    var fills := Fills(Add(b, OrderOf(d)).trades);
    forall j: nat | j < |fills| && fills[j].orderIdFilled != d.brokerId && fills[j].orderIdFilled in br.details
      ensures br.details[fills[j].orderIdFilled].clientId != ""
    {
      var i := FillNames(b, d, j);
    }
  }

  /** The submission up to the last of its fills. */
  lemma UnnamedSubmission(s: System, d: Details) returns (named: Broker)
    requires SystemOk(s) && d.clientId == "" && d.brokerId == s.broker.counter + 1 && d.filled == 0 < d.quantity
    requires ReachesNamed(s.book, s.broker, d)
    ensures var r := Add(s.book, OrderOf(d));
            && ProcessFills(Acked(s.broker, d), Fills(r.trades)) == WithUnnamed(named, d.(status := Acknowledged))
            && d.brokerId !in named.details
            && SignedTotal(named.sent) == -((d.quantity - r.left) * d.side.Sign())
  {
    var br, d1 := s.broker.(counter := s.broker.counter + 1), d.(status := Acknowledged);
    UnnamedRegistered(s, d);
    CountedTracks(s.broker);
    hide Fills, ProcessFills, Acked, Registered, Inv, Mirror, Tracked, WithUnnamed, Sized, OthersNamed, Add;
    hide ReachesNamed;
    AddSizes(s.book, s.broker, d, WithUnnamed(br, d1));
    AddNamesOthers(s.book, s.broker, d, br);
    UnnamedTraded(s.book, OrderOf(d));
    named := UnnamedUnreported(br, d1, Fills(Add(s.book, OrderOf(d)).trades));
  }

  lemma TradesWhenCrossing(b: Book, o: OrderState)
    requires Inv(b) && 0 < o.remaining && o.id !in b.Ids()
    ensures Add(b, o).left < o.remaining <==> CanMatch(b, o.side, o.price)
  {
    var theirs := b.On(o.side.Opposite());
    AddVolume(b, o);
    InvFrom(o.side, b);
    if CanMatch(b, o.side, o.price) {
      assert MayRest(o.side.Opposite(), theirs[0]);
    } else {
      NothingInReach(o.side, o.price, theirs);
    }
  }

  lemma FinishUnnamed(named: Broker, d: Details, status: FinalStatus)
    requires d.clientId == "" && d.brokerId !in named.details
    ensures var br' := Finish(WithUnnamed(named, d.(status := Acknowledged)), d, status);
            SignedTotal(br'.sent) == SignedTotal(named.sent)
  {
    OneMore(named.sent, CancelNotice(d));
  }

  /** A crossing submission under the empty client id that reaches named orders only: their fills
      are reported and its own are not, so they no longer cancel out. */
  lemma UnnamedUnbalances(s: System, c: Call)
    requires SystemOk(s) && c.Place? && c.price.Some? && c.clientId == "" && 0 < c.quantity
    requires ReachesNamed(s.book, s.broker, NewDetails(s.broker, c))
    requires CanMatch(s.book, c.side, c.price.value)
    ensures SignedTotal(Submitting(s, c).broker.sent) != 0
  {
    var d := NewDetails(s.broker, c);
    var r := Add(s.book, OrderOf(d));
    var named := UnnamedSubmission(s, d);
    NextIsNew(s);
    AddAnswers(s, c);
    TradesWhenCrossing(s.book, OrderOf(d));
    FinishUnnamed(named, d, StatusOf(d.kind, r.left));
    hide Submitting, Finish, WithUnnamed, Add, CanMatch, Tracked, Inv, Mirror, Fills, ProcessFills, ReachesNamed;
  }

  /** A submission with a quantity keeps broker and book in step if and only if none of its trades
      names an order under the empty client id. */
  lemma NamesExactly(s: System, c: Call)
    requires SystemOk(s) && c.Place? && c.price.Some? && 0 < c.quantity
    ensures SystemOk(Submitting(s, c)) <==> TradesNamed(s.book, s.broker, NewDetails(s.broker, c))
    ensures InStep(Submitting(s, c)) <==> TradesNamed(s.book, s.broker, NewDetails(s.broker, c))
  {
    var b, br, d := s.book, s.broker, NewDetails(s.broker, c);
    var theirs := b.On(c.side.Opposite());
    hide Submitting, Mirror, Inv, Tracked, CanMatch, Reached;
    if TradesNamed(b, br, d) {
      PricedSubmission(s, c);
    } else if ReachesNamed(b, br, d) {
      UnnamedUnbalances(s, c);
    } else {
      var i: nat :| i < |theirs| && Reached(theirs, i, d) && theirs[i].id in br.details
                    && br.details[theirs[i].id].clientId == "";
      ReachedUnnamed(s, c, i);
    }
  }

  /** What a Good-Till-Cancel order that meets no crossing order leaves. */
  lemma RestsAtOnce(s: System, c: Call)
    requires SystemOk(s) && Sound(s, c)
    requires c.kind.GoodTillCancel? && !CanMatch(s.book, c.side, c.price.value)
    ensures var d := NewDetails(s.broker, c);
            Submitting(s, c) == System(s.book.With(c.side, Insert(s.book.On(c.side), OrderOf(d))),
                                       Register(s.broker, d).Put(d.brokerId, d.(status := Working)))
  {
    var br, d := s.broker, NewDetails(s.broker, c);
    hide Add, Submitting, Insert, Inv, Mirror, Tracked, CanMatch;
    NextIsNew(s);
    AddAnswers(s, c);
    AddRests(s.book, OrderOf(d));
    AckedThenMarked(br, d);
  }

  lemma AddRests(b: Book, o: OrderState)
    requires Inv(b) && 0 < o.remaining && o.id !in b.Ids() && o.kind.GoodTillCancel? && !CanMatch(b, o.side, o.price)
    ensures Add(b, o) == AddResult(b.With(o.side, Insert(b.On(o.side), o)), [], true, o.remaining)
  {
    AddIsGreedy(b, o);
    assert Walk(o, b.On(o.side.Opposite())) == WalkResult(o, b.On(o.side.Opposite()), []);
    hide Add, Insert, Inv;
  }

  lemma AckedThenMarked(br: Broker, d: Details)
    ensures Finish(ProcessFills(Acked(br, d), []), d, BookWorking)
            == Register(br, d).Put(d.brokerId, d.(status := Working))
  {
  }

  /** A buy and a sale of the same size at the same price, the buy under the empty client id. */
  const UNNAMED_BUY := Place("", "X", 5, Buy, GoodTillCancel, Some(10))
  const NAMED_SALE := Place("a", "X", 5, Sell, GoodTillCancel, Some(10))

  lemma UnnamedRests()
    ensures var s1 := Submitting(System(EMPTY, NEW_BROKER), UNNAMED_BUY);
            && SystemOk(s1) && s1.book == Book([OrderState(1, Buy, 10, GoodTillCancel, 5, 5)], [])
            && s1.broker.toBroker == map["" := 1] && 1 in s1.broker.details && s1.broker.details[1].clientId == ""
  {
    var s0 := System(EMPTY, NEW_BROKER);
    hide Submitting;
    PricedSubmission(s0, UNNAMED_BUY);
    RestsAtOnce(s0, UNNAMED_BUY);
  }

  /** An order under the empty client id may rest and be cancelled; a trade that names it puts broker
      and book out of step. */
  lemma UnnamedTrade()
    ensures var s1 := Submitting(System(EMPTY, NEW_BROKER), UNNAMED_BUY);
            && InStep(s1) && InStep(Cancelling(s1, "")) && Cancelling(s1, "").book == EMPTY
            && !InStep(Submitting(s1, NAMED_SALE))
  {
    var s1 := Submitting(System(EMPTY, NEW_BROKER), UNNAMED_BUY);
    hide Submitting, Cancelling;
    UnnamedRests();
    Cancellation(s1, "");
    UnnamedIsReached(s1);
    NamesExactly(s1, NAMED_SALE);
    hide SystemOk, TradesNamed;
  }

  lemma UnnamedIsReached(s: System)
    requires s.book == Book([OrderState(1, Buy, 10, GoodTillCancel, 5, 5)], [])
    requires 1 in s.broker.details && s.broker.details[1].clientId == ""
    ensures !TradesNamed(s.book, s.broker, NewDetails(s.broker, NAMED_SALE))
  {
    var d := NewDetails(s.broker, NAMED_SALE);
    var theirs := s.book.On(d.side.Opposite());
    assert theirs == s.book.bids && theirs[0].id == 1;
    assert Reached(theirs, 0, d);
  }

  // ---------- Any call, any run ----------

  /** The calls that keep broker and book in step: what is checked before the call. */
  predicate Harmless(s: System, c: Call) {
    c.Place? && c.price.Some? ==>
      if c.quantity == 0 then c.kind.FillAndKill? || CanMatch(s.book, c.side, c.price.value)
      else TradesNamed(s.book, s.broker, NewDetails(s.broker, c))
  }

  /** The exact condition for any call: with it the whole invariant is kept, without it broker and
      book are out of step. */
  lemma CallExactly(s: System, c: Call)
    requires SystemOk(s)
    ensures SystemOk(Calling(s, c)) <==> Harmless(s, c)
    ensures InStep(Calling(s, c)) <==> Harmless(s, c)
  {
    if c.Recall? {
      Cancellation(s, c.clientId);
    } else if c.price.None? {
      SendTracks(s.broker, Rejection(c.clientId, c.symbol, c.side));
    } else if c.quantity == 0 {
      ZeroExactly(s, c);
    } else {
      NamesExactly(s, c);
    }
    hide Submitting, Cancelling, CanMatch, TradesNamed, Mirror, Inv, Tracked;
  }

  ghost predicate HarmlessRun(s: System, calls: seq<Call>)
    decreases |calls|
  {
    calls != [] ==> Harmless(s, calls[0]) && HarmlessRun(Calling(s, calls[0]), calls[1..])
  }

  /** Broker and book are in step now and after each of the calls. */
  ghost predicate AlwaysInStep(s: System, calls: seq<Call>)
    decreases |calls|
  {
    InStep(s) && (calls != [] ==> AlwaysInStep(Calling(s, calls[0]), calls[1..]))
  }

  lemma {:induction false} CallsExactly(s: System, calls: seq<Call>)
    requires SystemOk(s)
    ensures AlwaysInStep(s, calls) <==> HarmlessRun(s, calls)
    ensures HarmlessRun(s, calls) ==> SystemOk(CallingAll(s, calls))
    decreases |calls|
  {
    if calls != [] {
      CallExactly(s, calls[0]);
      hide SystemOk, InStep, Calling, Harmless;
      if SystemOk(Calling(s, calls[0])) {
        CallsExactly(Calling(s, calls[0]), calls[1..]);
      }
    }
  }

  /** Over every run of a new broker on an empty book, whatever is called and in whatever way client
      ids are used again: broker and book are in step all the time if and only if every call is
      harmless; and then the book keeps its invariant and client ids lead to orders of theirs. */
  lemma EveryRunMirrors(calls: seq<Call>)
    ensures AlwaysInStep(System(EMPTY, NEW_BROKER), calls) <==> HarmlessRun(System(EMPTY, NEW_BROKER), calls)
    ensures HarmlessRun(System(EMPTY, NEW_BROKER), calls) ==> SystemOk(CallingAll(System(EMPTY, NEW_BROKER), calls))
  {
    CallsExactly(System(EMPTY, NEW_BROKER), calls);
  }

  // ---------- Runs that are harmless for sure ----------

  /** A priced submission has a quantity and a non-empty client id. */
  predicate Proper(c: Call) { c.Place? && c.price.Some? ==> c.clientId != "" && 0 < c.quantity }

  ghost predicate AllProper(calls: seq<Call>) { forall i :: 0 <= i < |calls| ==> Proper(calls[i]) }

  ghost predicate NoneUnnamed(br: Broker) { forall id :: id in br.details ==> br.details[id].clientId != "" }

  lemma {:induction false} FillsKeepNames(br: Broker, fills: seq<FillInfo>)
    requires NoneUnnamed(br)
    ensures NoneUnnamed(ProcessFills(br, fills))
    decreases |fills|
  {
    if fills != [] {
      FillsKeepNames(ProcessFill(br, fills[0]), fills[1..]);
    }
  }

  lemma ProperKeepsNames(s: System, c: Call)
    requires SystemOk(s) && NoneUnnamed(s.broker) && Proper(c)
    ensures Harmless(s, c) && NoneUnnamed(Calling(s, c).broker)
  {
    if c.Place? && c.price.Some? {
      var d := NewDetails(s.broker, c);
      var r := Add(s.book, OrderOf(d));
      NextIsNew(s);
      AddAnswers(s, c);
      hide Add, Fills, ProcessFills, Submitting, Finish, Mirror, Inv, Tracked, CanMatch, Reached;
      assert NoneUnnamed(Acked(s.broker, d));
      FillsKeepNames(Acked(s.broker, d), Fills(r.trades));
      FinishKeepsNames(ProcessFills(Acked(s.broker, d), Fills(r.trades)), d, StatusOf(d.kind, r.left));
    }
  }

  lemma FinishKeepsNames(br: Broker, d: Details, status: FinalStatus)
    requires NoneUnnamed(br)
    ensures NoneUnnamed(Finish(br, d, status))
  {
  }

  /** With quantities and client ids given, every run is harmless, however the ids are used again. */
  lemma {:induction false} ProperRunsAreHarmless(s: System, calls: seq<Call>)
    requires SystemOk(s) && NoneUnnamed(s.broker) && AllProper(calls)
    ensures HarmlessRun(s, calls)
    decreases |calls|
  {
    if calls != [] {
      ProperKeepsNames(s, calls[0]);
      CallExactly(s, calls[0]);
      hide SystemOk, NoneUnnamed, Calling, Harmless, Proper;
      ProperRunsAreHarmless(Calling(s, calls[0]), calls[1..]);
    }
  }
}
