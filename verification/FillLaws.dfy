/** How the broker's own maps move with a sequence of fills. */
module FillLaws {
  import opened Types
  import opened Server
  import opened Confirmations
  import opened BrokerModel

  /** Each client id leads to a tracked order of that client id, and every tracked order is
      unfinished. */
  ghost predicate Tracked(br: Broker) {
    && br.toClient.Keys == br.details.Keys
    && (forall cid :: cid in br.toBroker ==> br.toBroker[cid] in br.toClient && br.toClient[br.toBroker[cid]] == cid)
    && (forall id :: id in br.details ==> Live(br, id))
  }

  /** Each tracked order, but for those of the client ids `but`, is the one its client id leads to. */
  ghost predicate Paired(br: Broker, but: set<string>) {
    forall id :: id in br.toClient && br.toClient[id] !in but ==>
      br.toClient[id] in br.toBroker && br.toBroker[br.toClient[id]] == id
  }

  /** The two id maps are inverse bijections over the tracked orders. */
  ghost predicate Linked(br: Broker) { Tracked(br) && Paired(br, {}) }

  ghost predicate Live(br: Broker, id: OrderId)
    requires id in br.details
  {
    var d := br.details[id];
    && 0 < id <= br.counter && d.brokerId == id
    && id in br.toClient && d.clientId == br.toClient[id]
    && d.filled < d.quantity
    && (d.status == Acknowledged || d.status == Working)
  }

  function TermsOf(d: Details): Terms { Terms(d.clientId, d.quantity, d.symbol, d.side, d.price) }

  function AskedBy(c: Call): Terms
    requires c.Place?
  {
    Terms(c.clientId, c.quantity, c.symbol, c.side, if c.price.Some? then c.price.value else 0)
  }

  /** The quantity that `fills` give order `id`. */
  function FilledIn(fills: seq<FillInfo>, id: OrderId): nat {
    if fills == [] then 0
    else (if fills[0].orderIdFilled == id then fills[0].tradedQuantity else 0) + FilledIn(fills[1..], id)
  }

  lemma {:induction false} NamedIsFilled(fills: seq<FillInfo>, i: nat)
    requires i < |fills|
    ensures fills[i].tradedQuantity <= FilledIn(fills, fills[i].orderIdFilled)
  {
    if i != 0 {
      NamedIsFilled(fills[1..], i - 1);
    }
  }

  /** Every fill is of a tracked order, at its side and price, and none of them is overfilled in the
      end. */
  ghost predicate Sized(br: Broker, fills: seq<FillInfo>) {
    && (forall i :: 0 <= i < |fills| ==> fills[i].tradedQuantity > 0 && fills[i].orderIdFilled in br.details)
    && (forall i :: 0 <= i < |fills| && fills[i].orderIdFilled in br.details ==>
          var d := br.details[fills[i].orderIdFilled]; d.side == fills[i].side && d.price == fills[i].price)
    && (forall id :: id in br.details ==> br.details[id].filled + FilledIn(fills, id) <= br.details[id].quantity)
  }

  /** No fill is of an order under the empty client id, which the broker would ignore. */
  ghost predicate AllNamed(br: Broker, fills: seq<FillInfo>) {
    forall i :: 0 <= i < |fills| && fills[i].orderIdFilled in br.details ==>
      br.details[fills[i].orderIdFilled].clientId != ""
  }

  ghost predicate Fits(br: Broker, fills: seq<FillInfo>) { Sized(br, fills) && AllNamed(br, fills) }

  /** One fill that is not ignored. */
  predicate Heard(br: Broker, f: FillInfo) {
    f.orderIdFilled in br.details && br.details[f.orderIdFilled].clientId != "" && f.tradedQuantity > 0
  }

  /** What a fill of a tracked order says. */
  function FillNotice(br: Broker, f: FillInfo): Confirmation
    requires f.orderIdFilled in br.details
  {
    var d := br.details[f.orderIdFilled];
    Confirmation(f.orderIdFilled, d.clientId, d.symbol, f.tradedQuantity, d.side, f.price,
                 if d.filled + f.tradedQuantity >= d.quantity then Filled else PartiallyFilled)
  }

  /** `FillNotice` sent, and the record updated or, when that fills it up, taken out. */
  function FillOf(br: Broker, f: FillInfo): Broker
    requires f.orderIdFilled in br.details
  {
    var id := f.orderIdFilled;
    var d := br.details[id];
    if d.filled + f.tradedQuantity >= d.quantity then br.Send(FillNotice(br, f)).Cleanup(d.clientId, id)
    else br.Put(id, d.(filled := d.filled + f.tradedQuantity, status := Working)).Send(FillNotice(br, f))
  }

  lemma KnownFill(br: Broker, f: FillInfo)
    requires Known(br, f)
    requires var d := br.details[f.orderIdFilled]; d.clientId == br.toClient[f.orderIdFilled] && d.status != Filled
    ensures ProcessFill(br, f) == FillOf(br, f)
  {
    var id := f.orderIdFilled;
    var full := br.details[id].(filled := br.details[id].filled + f.tradedQuantity, status := Filled);
    assert br.details[id := full] - {id} == br.details - {id};
  }

  lemma TrackedFill(br: Broker, f: FillInfo)
    requires Tracked(br) && Heard(br, f)
    ensures Live(br, f.orderIdFilled) && ProcessFill(br, f) == FillOf(br, f)
  {
    assert Live(br, f.orderIdFilled);
    KnownFill(br, f);
  }

  lemma FillKeepsTracked(br: Broker, f: FillInfo)
    requires Tracked(br) && Heard(br, f)
    ensures Tracked(ProcessFill(br, f))
  {
    TrackedFill(br, f);
    hide ProcessFill;
    var br' := ProcessFill(br, f);
    forall x | x in br'.details ensures Live(br', x) {
      assert Live(br, x);
    }
  }

  lemma FillKeepsPaired(br: Broker, but: set<string>, f: FillInfo)
    requires Tracked(br) && Paired(br, but) && Heard(br, f)
    ensures Paired(ProcessFill(br, f), but)
  {
    TrackedFill(br, f);
    hide ProcessFill;
  }

  /** The client id of a tracked order leads to nothing else that is tracked under another id. */
  lemma ClientOf(br: Broker, id: OrderId)
    requires Linked(br) && id in br.details
    ensures Live(br, id) && br.details[id].clientId in br.toBroker && br.toBroker[br.details[id].clientId] == id
    ensures forall cid :: cid in br.toBroker && br.toBroker[cid] == id ==> cid == br.details[id].clientId
    ensures forall cid :: cid in br.toBroker ==> br.toBroker[cid] in br.details
  {
  }

  /** The order a client id leads to. */
  lemma LeadsTo(br: Broker, cid: string)
    requires Tracked(br) && cid in br.toBroker
    ensures var id := br.toBroker[cid];
            id in br.details && Live(br, id) && br.details[id].clientId == cid
  {
  }

  /** The rest of the fills still fits. */
  lemma FitsOn(br: Broker, fills: seq<FillInfo>)
    requires Tracked(br) && Fits(br, fills) && fills != []
    ensures Fits(ProcessFill(br, fills[0]), fills[1..])
  {
    var f, rest := fills[0], fills[1..];
    TrackedFill(br, f);
    hide ProcessFill, Tracked, Live;
    var br' := ProcessFill(br, f);
    forall i | 0 <= i < |rest|
      ensures rest[i].tradedQuantity > 0 && rest[i].orderIdFilled in br'.details
      ensures br'.details[rest[i].orderIdFilled].side == rest[i].side
      ensures br'.details[rest[i].orderIdFilled].price == rest[i].price
      ensures br'.details[rest[i].orderIdFilled].clientId != ""
    {
      assert rest[i] == fills[i + 1] && Heard(br, fills[i + 1]);
      NamedIsFilled(rest, i);
    }
  }

  /** What a fitting sequence of fills leaves of the tracked orders: those not filled up, each
      with its fills added. */
  ghost predicate FilledUp(br: Broker, fills: seq<FillInfo>, br': Broker) {
    && br'.counter == br.counter
    && (forall id :: FilledUpAt(br, fills, br', id))
    && br'.toBroker.Keys <= br.toBroker.Keys
  }

  ghost predicate FilledUpAt(br: Broker, fills: seq<FillInfo>, br': Broker, id: OrderId) {
    if id in br.details then
      var d := br.details[id];
      var q := FilledIn(fills, id);
      && (id in br'.details <==> d.filled + q < d.quantity)
      && (id in br'.details ==>
            br'.details[id] == d.(filled := d.filled + q, status := if q == 0 then d.status else Working))
    else id !in br'.details
  }

  function SignedFills(fills: seq<FillInfo>): int {
    if fills == [] then 0 else fills[0].tradedQuantity * fills[0].side.Sign() + SignedFills(fills[1..])
  }

  /** A fitting batch of fills, whatever client ids are shared. */
  lemma {:induction false} FillsKeep(br: Broker, fills: seq<FillInfo>)
    requires Tracked(br) && Fits(br, fills)
    ensures var br' := ProcessFills(br, fills);
            && Tracked(br') && FilledUp(br, fills, br')
            && SignedTotal(br'.sent) == SignedTotal(br.sent) + SignedFills(fills)
    decreases |fills|
  {
    if fills == [] {
      forall id | id in br.details ensures br.details[id].filled < br.details[id].quantity {
        assert Live(br, id);
      }
    } else {
      NamedIsFilled(fills, 0);
      FillKeepsTracked(br, fills[0]);
      FitsOn(br, fills);
      FillSigned(br, fills[0]);
      hide Tracked, Fits, FilledUp, ProcessFill;
      FillsKeep(ProcessFill(br, fills[0]), fills[1..]);
      FilledUpStep(br, fills);
    }
  }

  lemma {:induction false} FillsKeepPaired(br: Broker, but: set<string>, fills: seq<FillInfo>)
    requires Tracked(br) && Paired(br, but) && Fits(br, fills)
    ensures Paired(ProcessFills(br, fills), but)
    decreases |fills|
  {
    if fills != [] {
      FillKeepsTracked(br, fills[0]);
      FillKeepsPaired(br, but, fills[0]);
      FitsOn(br, fills);
      hide Tracked, Paired, ProcessFill;
      FillsKeepPaired(ProcessFill(br, fills[0]), but, fills[1..]);
    }
  }

  lemma FillSigned(br: Broker, f: FillInfo)
    requires Tracked(br) && Heard(br, f)
    requires br.details[f.orderIdFilled].side == f.side
    ensures SignedTotal(ProcessFill(br, f).sent) == SignedTotal(br.sent) + f.tradedQuantity * f.side.Sign()
  {
    assert Live(br, f.orderIdFilled);
    OneMore(br.sent, ProcessFill(br, f).sent[|br.sent|]);
  }

  lemma FilledUpStep(br: Broker, fills: seq<FillInfo>)
    requires Tracked(br) && Fits(br, fills) && fills != []
    requires var br1 := ProcessFill(br, fills[0]);
             Fits(br1, fills[1..]) && FilledUp(br1, fills[1..], ProcessFills(br1, fills[1..]))
    ensures FilledUp(br, fills, ProcessFills(br, fills))
  {
    var br1 := ProcessFill(br, fills[0]);
    var br' := ProcessFills(br1, fills[1..]);
    TrackedFill(br, fills[0]);
    assert br' == ProcessFills(br, fills);
    hide ProcessFill, ProcessFills, Tracked, Fits, FilledUpAt;
    forall id ensures FilledUpAt(br, fills, br', id) {
      assert FilledUpAt(br1, fills[1..], br', id);
      FilledUpAtStep(br, fills, br', id);
    }
  }

  lemma FilledUpAtStep(br: Broker, fills: seq<FillInfo>, br': Broker, id: OrderId)
    requires Tracked(br) && Fits(br, fills) && fills != []
    requires FilledUpAt(ProcessFill(br, fills[0]), fills[1..], br', id)
    ensures FilledUpAt(br, fills, br', id)
  {
    TrackedFill(br, fills[0]);
    NamedIsFilled(fills, 0);
    hide ProcessFill, Tracked;
  }
}
