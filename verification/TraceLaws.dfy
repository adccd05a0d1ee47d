/** What each client order has been told: partial fills, then at most one terminal status, as
    long as no client id is ever used twice. */
module TraceLaws {
  import opened Types
  import opened Matching
  import opened Server
  import opened Confirmations
  import opened BrokerModel
  import opened FillLaws
  import opened MirrorLaws
  import opened EdgeLaws
  import opened ReuseLaws

  /** What has been said of client order `cid`, given the terms asked for. */
  ghost predicate TraceOk(br: Broker, asked: map<string, Terms>, cid: string) {
    var trace := Of(br.sent, cid);
    && (cid in asked ==> Told(trace, asked[cid]))
    && if cid in br.toBroker then
         && br.toBroker[cid] in br.details && cid in asked
         && asked[cid] == TermsOf(br.details[br.toBroker[cid]])
         && Open(trace, br.details[br.toBroker[cid]].filled)
       else if cid in asked then Closed(trace, asked[cid].quantity)
       else trace == []
  }

  ghost predicate TracesOk(br: Broker, asked: map<string, Terms>) { forall cid :: TraceOk(br, asked, cid) }

  // ---------- One client order ----------

  /** Nothing happened to client order `cid`. */
  ghost predicate SameAt(br: Broker, br': Broker, cid: string) {
    && Of(br'.sent, cid) == Of(br.sent, cid)
    && (cid in br'.toBroker <==> cid in br.toBroker)
    && (cid in br.toBroker ==>
          var id := br.toBroker[cid];
          && br'.toBroker[cid] == id && id in br.details && id in br'.details
          && TermsOf(br'.details[id]) == TermsOf(br.details[id]) && br'.details[id].filled == br.details[id].filled)
  }

  ghost predicate AskedAlike(asked: map<string, Terms>, asked': map<string, Terms>, cid: string) {
    (cid in asked <==> cid in asked') && (cid in asked ==> asked[cid] == asked'[cid])
  }

  lemma SameTrace(br: Broker, br': Broker, asked: map<string, Terms>, asked': map<string, Terms>, cid: string)
    requires TraceOk(br, asked, cid) && SameAt(br, br', cid) && AskedAlike(asked, asked', cid)
    ensures TraceOk(br', asked', cid)
  {
    hide Of, Told, Open, Closed;
  }

  /** All traces are well-formed when that of `cid` is and nothing happened to any other. */
  lemma TracesMove(br: Broker, br': Broker, asked: map<string, Terms>, asked': map<string, Terms>, cid: string)
    requires TracesOk(br, asked) && TraceOk(br', asked', cid)
    requires forall x :: x != cid ==> SameAt(br, br', x) && AskedAlike(asked, asked', x)
    ensures TracesOk(br', asked')
  {
    hide TraceOk, SameAt, AskedAlike;
    forall x ensures TraceOk(br', asked', x) {
      if x != cid {
        assert TraceOk(br, asked, x);
        SameTrace(br, br', asked, asked', x);
      }
    }
  }

  lemma OfOthers(sent: seq<Confirmation>, c: Confirmation, cid: string)
    requires c.clientId != cid
    ensures Of(sent + [c], cid) == Of(sent, cid)
  {
    OneMore(sent, c);
    hide Of;
    assert Of(sent + [c], cid) == Of(sent, cid) + [];
  }

  lemma ClosedTrace(br: Broker, asked: map<string, Terms>, cid: string)
    requires cid !in br.toBroker && cid in asked
    requires Closed(Of(br.sent, cid), asked[cid].quantity) && Told(Of(br.sent, cid), asked[cid])
    ensures TraceOk(br, asked, cid)
  {
  }

  lemma OpenTrace(br: Broker, asked: map<string, Terms>, cid: string)
    requires cid in br.toBroker && br.toBroker[cid] in br.details && cid in asked
    requires asked[cid] == TermsOf(br.details[br.toBroker[cid]])
    requires Open(Of(br.sent, cid), br.details[br.toBroker[cid]].filled) && Told(Of(br.sent, cid), asked[cid])
    ensures TraceOk(br, asked, cid)
  {
  }

  /** A live order is where its client id leads, on the terms asked for, and only partial fills
      have been reported. */
  ghost predicate LiveAt(br: Broker, asked: map<string, Terms>, id: OrderId)
    requires id in br.details
  {
    var d := br.details[id]; var cid := d.clientId;
    && cid in br.toBroker && br.toBroker[cid] == id
    && cid in asked && asked[cid] == TermsOf(d)
    && Open(Of(br.sent, cid), d.filled) && Told(Of(br.sent, cid), TermsOf(d))
  }

  lemma LiveTrace(br: Broker, asked: map<string, Terms>, id: OrderId)
    requires Linked(br) && id in br.details && TraceOk(br, asked, br.details[id].clientId)
    ensures LiveAt(br, asked, id)
  {
    ClientOf(br, id);
    hide Of, Told, Open, Closed;
  }

  /** A last confirmation, with which the order goes. */
  lemma ClosingTrace(br: Broker, asked: map<string, Terms>, id: OrderId, filled: nat, c: Confirmation)
    requires var cid, trace := c.clientId, Of(br.sent, c.clientId);
             && cid in asked && Open(trace, filled) && Told(trace, asked[cid])
             && Says(c, asked[cid])
             && c.status.Terminal() && filled + c.filled <= asked[cid].quantity
             && (c.status == Filled <==> filled + c.filled == asked[cid].quantity)
    ensures TraceOk(br.Send(c).Cleanup(c.clientId, id), asked, c.clientId)
  {
    var trace, terms := Of(br.sent, c.clientId), asked[c.clientId];
    OneMore(br.sent, c);
    hide Of, TraceOk, Open, Closed, Told;
    ToldMore(trace, terms, c);
    Closes(trace, filled, terms.quantity, c);
    ClosedTrace(br.Send(c).Cleanup(c.clientId, id), asked, c.clientId);
  }

  /** A partial fill, entered into the record. */
  lemma GrowingTrace(br: Broker, asked: map<string, Terms>, id: OrderId, filled: nat, d: Details, c: Confirmation)
    requires var cid, trace := c.clientId, Of(br.sent, c.clientId);
             && cid in asked && cid in br.toBroker && br.toBroker[cid] == id && asked[cid] == TermsOf(d)
             && d.filled == filled + c.filled && Open(trace, filled) && Told(trace, asked[cid])
             && Says(c, TermsOf(d)) && c.status == PartiallyFilled
    ensures TraceOk(br.Put(id, d).Send(c), asked, c.clientId)
  {
    var trace := Of(br.sent, c.clientId);
    OneMore(br.sent, c);
    hide Of, TraceOk, Open, Closed, Told;
    ToldMore(trace, TermsOf(d), c);
    StaysOpen(trace, filled, c);
    OpenTrace(br.Put(id, d).Send(c), asked, c.clientId);
  }

  // ---------- Fills ----------

  lemma FilledClientTrace(br: Broker, asked: map<string, Terms>, f: FillInfo)
    requires Linked(br) && Heard(br, f)
    requires TraceOk(br, asked, br.details[f.orderIdFilled].clientId)
    requires br.details[f.orderIdFilled].filled + f.tradedQuantity <= br.details[f.orderIdFilled].quantity
    requires br.details[f.orderIdFilled].price == f.price
    ensures TraceOk(ProcessFill(br, f), asked, br.details[f.orderIdFilled].clientId)
  {
    hide ProcessFill, FillOf, Tracked, Paired, TraceOk, Live, LiveAt;
    TrackedFill(br, f);
    LiveTrace(br, asked, f.orderIdFilled);
    if br.details[f.orderIdFilled].filled + f.tradedQuantity == br.details[f.orderIdFilled].quantity {
      FilledUpTrace(br, asked, f);
    } else {
      PartlyFilledTrace(br, asked, f);
    }
  }

  lemma FilledUpTrace(br: Broker, asked: map<string, Terms>, f: FillInfo)
    requires f.orderIdFilled in br.details && LiveAt(br, asked, f.orderIdFilled)
    requires br.details[f.orderIdFilled].filled + f.tradedQuantity == br.details[f.orderIdFilled].quantity
    requires br.details[f.orderIdFilled].price == f.price
    ensures TraceOk(FillOf(br, f), asked, br.details[f.orderIdFilled].clientId)
  {
    var d := br.details[f.orderIdFilled];
    hide Of, Open, Told, TraceOk;
    ClosingTrace(br, asked, f.orderIdFilled, d.filled, FillNotice(br, f));
  }

  lemma PartlyFilledTrace(br: Broker, asked: map<string, Terms>, f: FillInfo)
    requires f.orderIdFilled in br.details && LiveAt(br, asked, f.orderIdFilled)
    requires br.details[f.orderIdFilled].filled + f.tradedQuantity < br.details[f.orderIdFilled].quantity
    requires br.details[f.orderIdFilled].price == f.price
    ensures TraceOk(FillOf(br, f), asked, br.details[f.orderIdFilled].clientId)
  {
    var d := br.details[f.orderIdFilled];
    hide Of, Open, Told, TraceOk;
    var d' := d.(filled := d.filled + f.tradedQuantity, status := Working);
    GrowingTrace(br, asked, f.orderIdFilled, d.filled, d', FillNotice(br, f));
  }

  lemma OthersKept(br: Broker, f: FillInfo, cid: string)
    requires Linked(br) && Heard(br, f)
    requires cid != br.details[f.orderIdFilled].clientId
    ensures SameAt(br, ProcessFill(br, f), cid)
  {
    hide ProcessFill, Of, Live;
    TrackedFill(br, f);
    ClientOf(br, f.orderIdFilled);
    hide Linked, Tracked, Paired;
    OfOthers(br.sent, FillNotice(br, f), cid);
    assert ProcessFill(br, f).sent == br.sent + [FillNotice(br, f)];
    if cid in br.toBroker {
      assert br.toBroker[cid] != f.orderIdFilled;
    }
  }

  /** One fill of a tracked order keeps every trace well-formed. */
  lemma FillKeepsTraces(br: Broker, asked: map<string, Terms>, f: FillInfo)
    requires Linked(br) && TracesOk(br, asked)
    requires Heard(br, f)
    requires br.details[f.orderIdFilled].filled + f.tradedQuantity <= br.details[f.orderIdFilled].quantity
    requires br.details[f.orderIdFilled].price == f.price
    ensures TracesOk(ProcessFill(br, f), asked)
  {
    var cid := br.details[f.orderIdFilled].clientId;
    hide ProcessFill, Linked, TraceOk, SameAt;
    assert TraceOk(br, asked, cid);
    FilledClientTrace(br, asked, f);
    forall x | x != cid ensures SameAt(br, ProcessFill(br, f), x) {
      OthersKept(br, f, x);
    }
    TracesMove(br, ProcessFill(br, f), asked, asked, cid);
  }

  lemma {:induction false} FillsKeepTraces(br: Broker, asked: map<string, Terms>, fills: seq<FillInfo>)
    requires Linked(br) && TracesOk(br, asked) && Fits(br, fills)
    ensures Linked(ProcessFills(br, fills)) && TracesOk(ProcessFills(br, fills), asked)
    decreases |fills|
  {
    if fills != [] {
      NamedIsFilled(fills, 0);
      FillKeepsTracked(br, fills[0]);
      FillKeepsPaired(br, {}, fills[0]);
      FitsOn(br, fills);
      FillKeepsTraces(br, asked, fills[0]);
      hide Tracked, Paired, TracesOk, ProcessFill;
      FillsKeepTraces(ProcessFill(br, fills[0]), asked, fills[1..]);
    }
  }

  // ---------- The other changes of the broker's state ----------

  lemma KnownClient(br: Broker, cid: string)
    requires Linked(br)
    ensures cid in br.toBroker ==> br.toBroker[cid] in br.details && br.toBroker[cid] <= br.counter
  {
    if cid in br.toBroker {
      assert Live(br, br.toBroker[cid]);
    }
  }

  lemma AckedOpens(br: Broker, asked: map<string, Terms>, d: Details)
    requires TraceOk(br, asked, d.clientId) && d.clientId !in asked && NewOrder(br, d)
    ensures TraceOk(Acked(br, d), asked[d.clientId := TermsOf(d)], d.clientId)
  {
  }

  lemma AckedElsewhere(br: Broker, d: Details, x: string)
    requires Linked(br) && NewOrder(br, d) && x != d.clientId
    ensures SameAt(br, Acked(br, d), x)
  {
    KnownClient(br, x);
    hide Linked, Of;
  }

  lemma AckedKeepsTraces(br: Broker, asked: map<string, Terms>, d: Details)
    requires Linked(br) && TracesOk(br, asked) && NewOrder(br, d) && d.clientId !in asked
    ensures TracesOk(Acked(br, d), asked[d.clientId := TermsOf(d)])
  {
    hide Linked, TraceOk, SameAt, Acked;
    assert TraceOk(br, asked, d.clientId);
    AckedOpens(br, asked, d);
    forall x | x != d.clientId ensures SameAt(br, Acked(br, d), x) {
      AckedElsewhere(br, d, x);
    }
    TracesMove(br, Acked(br, d), asked, asked[d.clientId := TermsOf(d)], d.clientId);
  }

  /** A notice with no fill that takes a live order out. */
  lemma CancelElsewhere(br: Broker, id: OrderId, c: Confirmation, x: string)
    requires Linked(br) && id in br.details && c.clientId == br.details[id].clientId && x != c.clientId
    ensures SameAt(br, br.Send(c).Cleanup(c.clientId, id), x)
  {
    ClientOf(br, id);
    OfOthers(br.sent, c, x);
    hide Of;
  }

  lemma CancelCloses(br: Broker, asked: map<string, Terms>, id: OrderId, c: Confirmation)
    requires Linked(br) && TraceOk(br, asked, c.clientId) && id in br.details
    requires c.clientId == br.details[id].clientId && c.filled == 0 && c.status == Cancelled
    requires Says(c, TermsOf(br.details[id]))
    ensures TraceOk(br.Send(c).Cleanup(c.clientId, id), asked, c.clientId)
  {
    hide Of, TraceOk, Open, Closed, Told;
    LiveTrace(br, asked, id);
    assert Live(br, id);
    hide Linked;
    ClosingTrace(br, asked, id, br.details[id].filled, c);
  }

  /** A cancellation notice with no fill closes the trace of a live order. */
  lemma CancelKeepsTraces(br: Broker, asked: map<string, Terms>, id: OrderId, c: Confirmation)
    requires Linked(br) && TracesOk(br, asked) && id in br.details
    requires c.clientId == br.details[id].clientId && c.filled == 0 && c.status == Cancelled
    requires Says(c, TermsOf(br.details[id]))
    ensures TracesOk(br.Send(c).Cleanup(c.clientId, id), asked)
  {
    hide Linked, TraceOk, SameAt;
    assert TraceOk(br, asked, c.clientId);
    CancelCloses(br, asked, id, c);
    forall x | x != c.clientId ensures SameAt(br, br.Send(c).Cleanup(c.clientId, id), x) {
      CancelElsewhere(br, id, c, x);
    }
    TracesMove(br, br.Send(c).Cleanup(c.clientId, id), asked, asked, c.clientId);
  }

  lemma UntoldTrace(br: Broker, asked: map<string, Terms>, cid: string)
    requires TraceOk(br, asked, cid) && cid !in asked
    ensures Of(br.sent, cid) == [] && cid !in br.toBroker
  {
    hide Of, Told, Closed, Open;
  }

  lemma OnlyRejected(sent: seq<Confirmation>, c: Confirmation, t: Terms)
    requires Of(sent, c.clientId) == [] && c.filled == 0 < t.quantity && c.status == Rejected
    requires Says(c, t)
    ensures Closed(Of(sent + [c], c.clientId), t.quantity) && Told(Of(sent + [c], c.clientId), t)
  {
    OneMore(sent, c);
    Closes([], 0, t.quantity, c);
    hide Of;
    assert Of(sent + [c], c.clientId) == [] + [c] == [c];
  }

  lemma RejectionCloses(br: Broker, asked: map<string, Terms>, c: Confirmation, terms: Terms)
    requires TraceOk(br, asked, c.clientId) && c.clientId !in asked
    requires c.filled == 0 < terms.quantity && c.status == Rejected && Says(c, terms)
    ensures TraceOk(br.Send(c), asked[c.clientId := terms], c.clientId)
  {
    hide Of, Told, Closed, Open, TraceOk;
    UntoldTrace(br, asked, c.clientId);
    OnlyRejected(br.sent, c, terms);
    ClosedTrace(br.Send(c), asked[c.clientId := terms], c.clientId);
  }

  /** Rejecting a client id that was never used is its whole trace. */
  lemma RejectionKeepsTraces(br: Broker, asked: map<string, Terms>, c: Confirmation, terms: Terms)
    requires Linked(br) && TracesOk(br, asked) && c.clientId !in asked
    requires c.filled == 0 < terms.quantity && c.status == Rejected && Says(c, terms)
    ensures TracesOk(br.Send(c), asked[c.clientId := terms])
  {
    hide Linked, TraceOk, Of;
    assert TraceOk(br, asked, c.clientId);
    RejectionCloses(br, asked, c, terms);
    forall x | x != c.clientId ensures SameAt(br, br.Send(c), x) {
      OfOthers(br.sent, c, x);
      KnownClient(br, x);
    }
    TracesMove(br, br.Send(c), asked, asked[c.clientId := terms], c.clientId);
  }

  lemma MarkKeepsTraces(br: Broker, asked: map<string, Terms>, id: OrderId)
    requires Linked(br) && TracesOk(br, asked) && id in br.details
    ensures TracesOk(br.Mark(id, Working), asked)
  {
    var cid := br.details[id].clientId;
    hide Linked, TraceOk, Of;
    forall x ensures SameAt(br, br.Mark(id, Working), x) {
      KnownClient(br, x);
    }
    assert TraceOk(br, asked, cid);
    SameTrace(br, br.Mark(id, Working), asked, asked, cid);
    TracesMove(br, br.Mark(id, Working), asked, asked, cid);
  }

  lemma FinishKeepsTraces(br: Broker, asked: map<string, Terms>, d: Details, status: FinalStatus)
    requires Linked(br) && TracesOk(br, asked) && SettledRecord(br, d, status)
    ensures TracesOk(Finish(br, d, status), asked)
  {
    hide Linked, TracesOk;
    if d.brokerId in br.details {
      if status.BookRejected? {
        CancelKeepsTraces(br, asked, d.brokerId, CancelNotice(d));
      } else {
        MarkKeepsTraces(br, asked, d.brokerId);
      }
    }
  }

  // ---------- The calls ----------

  lemma PricedTraces(s: System, asked: map<string, Terms>, c: Call)
    requires SystemOk(s) && Linked(s.broker) && TracesOk(s.broker, asked)
    requires Sound(s, c) && c.clientId !in asked
    ensures TracesOk(Submitting(s, c).broker, asked[c.clientId := AskedBy(c)])
    ensures Linked(Submitting(s, c).broker)
  {
    var b, br, d := s.book, s.broker, NewDetails(s.broker, c);
    var r, br1, asked' := Add(b, OrderOf(d)), Acked(br, d), asked[c.clientId := AskedBy(c)];
    assert TraceOk(br, asked, c.clientId);
    FreeIdLinks(s, c);
    SubmissionFills(b, br, d);
    SettlesRecord(b, br, d);
    AddAnswers(s, c);
    AckedPairs(br, d);
    AckedKeepsTraces(br, asked, d);
    hide Submitting, Tracked, Paired, TracesOk, Fills, ProcessFills, Finish, Mirror, SettledRecord, Fits, FilledUp;
    hide Acked, Add, Registered;
    FillsKeepTraces(br1, asked', Fills(r.trades));
    FinishKeepsTraces(ProcessFills(br1, Fills(r.trades)), asked', d, StatusOf(d.kind, r.left));
  }

  /** A cancel request for any client id at all. */
  lemma CancellationTraces(s: System, asked: map<string, Terms>, cid: string)
    requires SystemOk(s) && Linked(s.broker) && TracesOk(s.broker, asked)
    ensures TracesOk(Cancelling(s, cid).broker, asked)
  {
    hide Cancelling, SystemOk, TracesOk;
    Cancellation(s, cid);
    if cid in s.broker.toBroker {
      var id := s.broker.toBroker[cid];
      LeadsTo(s.broker, cid);
      hide Linked, Tracked, Paired;
      CancelKeepsTraces(s.broker, asked, id, CancelNotice(s.broker.details[id]));
    }
  }

  lemma NotLiveYet(br: Broker, asked: map<string, Terms>, cid: string)
    requires TracesOk(br, asked) && cid !in asked
    ensures cid !in br.toBroker
  {
    assert TraceOk(br, asked, cid);
  }

  lemma CallKeepsTraces(s: System, asked: map<string, Terms>, c: Call)
    requires SystemOk(s) && Linked(s.broker) && TracesOk(s.broker, asked)
    requires Harmless(s, c) && (c.Place? ==> c.clientId !in asked && 0 < c.quantity)
    ensures SystemOk(Calling(s, c)) && Linked(Calling(s, c).broker)
    ensures TracesOk(Calling(s, c).broker, if c.Place? then asked[c.clientId := AskedBy(c)] else asked)
  {
    hide SystemOk, Linked, TracesOk, Submitting, Cancelling, BothFinish, CanMatch, TraceOk;
    CallExactly(s, c);
    CallLinks(s, c);
    if c.Place? && c.price.Some? {
      NotLiveYet(s.broker, asked, c.clientId);
    }
    if c.Recall? {
      CancellationTraces(s, asked, c.clientId);
    } else if c.price.Some? {
      PricedTraces(s, asked, c);
    } else {
      UnpricedTraces(s, asked, c);
    }
  }

  lemma UnpricedTraces(s: System, asked: map<string, Terms>, c: Call)
    requires Linked(s.broker) && TracesOk(s.broker, asked)
    requires c.Place? && c.price.None? && c.clientId !in asked && 0 < c.quantity
    ensures TracesOk(Submitting(s, c).broker, asked[c.clientId := AskedBy(c)])
  {
    hide Linked, TracesOk;
    RejectionKeepsTraces(s.broker, asked, Rejection(c.clientId, c.symbol, c.side), AskedBy(c));
  }

  // ---------- A client id that was used before ----------

  lemma {:induction false} OfGrows(sent: seq<Confirmation>, sent': seq<Confirmation>, cid: string)
    requires sent <= sent'
    ensures Of(sent, cid) <= Of(sent', cid) && |Of(sent, cid)| <= |Of(sent', cid)|
  {
    if |sent'| > |sent| {
      OfGrows(sent, sent'[..|sent'| - 1], cid);
    } else {
      assert sent == sent';
    }
  }

  /** A terminal status is the last word: nothing that continues such a trace is open, and
      nothing that goes beyond it is closed. */
  lemma TerminalIsLast(trace: seq<Confirmation>, quantity: nat, trace': seq<Confirmation>)
    requires Closed(trace, quantity) && trace <= trace'
    ensures forall filled :: !Open(trace', filled)
    ensures |trace| < |trace'| ==> forall q :: !Closed(trace', q)
  {
    assert trace'[|trace| - 1] == trace[|trace| - 1];
  }

  lemma {:induction false} FillsAppend(br: Broker, fills: seq<FillInfo>)
    ensures br.sent <= ProcessFills(br, fills).sent
    decreases |fills|
  {
    if fills != [] {
      FillsAppend(ProcessFill(br, fills[0]), fills[1..]);
    }
  }

  lemma FillTells(br: Broker, f: FillInfo, id: OrderId)
    requires Tracked(br) && Heard(br, f) && id in br.details
    ensures var cid, br' := br.details[id].clientId, ProcessFill(br, f);
            && |Of(br.sent, cid)| <= |Of(br'.sent, cid)|
            && if id in br'.details then br'.details[id].clientId == cid
               else |Of(br.sent, cid)| < |Of(br'.sent, cid)|
  {
    hide ProcessFill, Of;
    TrackedFill(br, f);
    var cid, c := br.details[id].clientId, FillNotice(br, f);
    OfLength(br.sent, c, cid);
    assert ProcessFill(br, f).sent == br.sent + [c];
    hide Tracked;
  }

  lemma OfLength(sent: seq<Confirmation>, c: Confirmation, cid: string)
    ensures |Of(sent + [c], cid)| == |Of(sent, cid)| + if c.clientId == cid then 1 else 0
  {
    OneMore(sent, c);
  }

  /** An order that is filled up has been told so. */
  lemma {:induction false} FillsTell(br: Broker, fills: seq<FillInfo>, id: OrderId)
    requires Tracked(br) && Fits(br, fills) && id in br.details && id !in ProcessFills(br, fills).details
    ensures var cid := br.details[id].clientId;
            |Of(br.sent, cid)| < |Of(ProcessFills(br, fills).sent, cid)|
    decreases |fills|
  {
    var cid, br1 := br.details[id].clientId, ProcessFill(br, fills[0]);
    assert Heard(br, fills[0]);
    FillTells(br, fills[0], id);
    FillKeepsTracked(br, fills[0]);
    FitsOn(br, fills);
    hide ProcessFill, Tracked, Fits, Of;
    if id in br1.details {
      FillsTell(br1, fills[1..], id);
    } else {
      FillsAppend(br1, fills[1..]);
      OfGrows(br1.sent, ProcessFills(br1, fills[1..]).sent, cid);
    }
  }

  lemma FinishTells(br: Broker, d: Details, status: FinalStatus)
    requires SettledRecord(br, d, status)
    ensures br.sent <= Finish(br, d, status).sent
    ensures d.brokerId in br.details && d.brokerId !in Finish(br, d, status).details ==>
              |Of(br.sent, d.clientId)| < |Of(Finish(br, d, status).sent, d.clientId)|
  {
    OneMore(br.sent, CancelNotice(d));
  }

  lemma FinishKeepsClient(br: Broker, d: Details, status: FinalStatus)
    requires SettledRecord(br, d, status)
    ensures var br' := Finish(br, d, status);
            d.brokerId in br'.details ==> d.brokerId in br.details && br'.details[d.brokerId].clientId == d.clientId
  {
  }

  /** Since `sent`, more has been said of `cid`, or its order `id` is live. */
  ghost predicate LiveOrLonger(sent: seq<Confirmation>, br: Broker, id: OrderId, cid: string) {
    && sent <= br.sent
    && if id in br.details then br.details[id].clientId == cid else |Of(sent, cid)| < |Of(br.sent, cid)|
  }

  lemma FillsAndFinishTell(br: Broker, d: Details, fills: seq<FillInfo>, status: FinalStatus)
    requires Tracked(br) && Fits(br, fills) && SettledRecord(ProcessFills(br, fills), d, status)
    requires d.brokerId in br.details && br.details[d.brokerId].clientId == d.clientId
    ensures LiveOrLonger(br.sent, Finish(ProcessFills(br, fills), d, status), d.brokerId, d.clientId)
  {
    var br2 := ProcessFills(br, fills);
    hide Tracked, Fits, ProcessFills, Finish, SettledRecord, Of;
    FinishTells(br2, d, status);
    FinishKeepsClient(br2, d, status);
    FillsAppend(br, fills);
    if d.brokerId !in br2.details {
      FillsTell(br, fills, d.brokerId);
    }
    OfGrows(br.sent, br2.sent, d.clientId);
    OfGrows(br2.sent, Finish(br2, d, status).sent, d.clientId);
  }

  lemma AckedHas(br: Broker, c: Call)
    requires c.Place? && c.price.Some?
    ensures var d := NewDetails(br, c);
            && d.clientId == c.clientId && d.brokerId == br.counter + 1 && Acked(br, d).sent == br.sent
            && d.brokerId in Acked(br, d).details && Acked(br, d).details[d.brokerId].clientId == d.clientId
  {
  }

  /** The steps of a submission: acknowledged, filled, finished. */
  lemma SubmissionSteps(s: System, c: Call) returns (fills: seq<FillInfo>, status: FinalStatus)
    requires SystemOk(s) && c.Place? && c.price.Some? && Sound(s, c)
    ensures var d := NewDetails(s.broker, c);
            && Tracked(Acked(s.broker, d)) && Fits(Acked(s.broker, d), fills)
            && SettledRecord(ProcessFills(Acked(s.broker, d), fills), d, status)
            && Submitting(s, c).broker == Finish(ProcessFills(Acked(s.broker, d), fills), d, status)
  {
    var d := NewDetails(s.broker, c);
    var r := Add(s.book, OrderOf(d));
    SubmissionFills(s.book, s.broker, d);
    SettlesRecord(s.book, s.broker, d);
    AddAnswers(s, c);
    fills, status := Fills(r.trades), StatusOf(d.kind, r.left);
    hide Submitting, Tracked, Fills, ProcessFills, Finish, Mirror, SettledRecord, Fits, FilledUp;
    hide Acked, Add, Registered;
  }

  /** A new order is live after its submission, or something has been said under its id. */
  lemma SubmissionTells(s: System, c: Call)
    requires SystemOk(s) && c.Place? && c.price.Some? && Sound(s, c)
    ensures LiveOrLonger(s.broker.sent, Submitting(s, c).broker, s.broker.counter + 1, c.clientId)
  {
    hide *;
    var d := NewDetails(s.broker, c);
    AckedHas(s.broker, c);
    var fills, status := SubmissionSteps(s, c);
    FillsAndFinishTell(Acked(s.broker, d), d, fills, status);
  }

  lemma BrokenTrace(br: Broker, asked: map<string, Terms>, cid: string, trace: seq<Confirmation>, quantity: nat)
    requires Closed(trace, quantity) && trace <= Of(br.sent, cid) && cid in asked
    requires cid in br.toBroker || |trace| < |Of(br.sent, cid)|
    ensures !TraceOk(br, asked, cid)
  {
    hide Of, Told;
    TerminalIsLast(trace, quantity, Of(br.sent, cid));
    hide Closed, Open;
  }

  /** After a submission under an id that was not live, the id leads to the order or more has been
      said under it. */
  lemma LiveOrTold(s: System, c: Call)
    requires SystemOk(s) && Linked(s.broker) && c.Place? && Harmless(s, c) && 0 < c.quantity
    requires c.clientId !in s.broker.toBroker
    ensures var br, br' := s.broker, Submitting(s, c).broker;
            && br.sent <= br'.sent
            && (c.clientId in br'.toBroker || |Of(br.sent, c.clientId)| < |Of(br'.sent, c.clientId)|)
  {
    if c.price.Some? {
      SubmissionTells(s, c);
      FreeIdLinks(s, c);
      hide Submitting, SystemOk, Linked, Of;
      if s.broker.counter + 1 in Submitting(s, c).broker.details {
        ClientOf(Submitting(s, c).broker, s.broker.counter + 1);
      }
    } else {
      OneMore(s.broker.sent, Rejection(c.clientId, c.symbol, c.side));
      hide SystemOk, Linked, Of;
    }
  }

  lemma ClosedBefore(br: Broker, asked: map<string, Terms>, cid: string)
    requires TraceOk(br, asked, cid) && cid in asked && cid !in br.toBroker
    ensures Closed(Of(br.sent, cid), asked[cid].quantity)
  {
  }

  /** Under an id whose order is finished, whatever is asked: its trace does not end with its
      terminal status any more. */
  lemma UsedIdBreaksTrace(s: System, asked: map<string, Terms>, c: Call)
    requires SystemOk(s) && Linked(s.broker) && TraceOk(s.broker, asked, c.clientId)
    requires c.Place? && Harmless(s, c) && 0 < c.quantity && c.clientId in asked && c.clientId !in s.broker.toBroker
    ensures !TraceOk(Submitting(s, c).broker, asked[c.clientId := AskedBy(c)], c.clientId)
  {
    var br, br', asked' := s.broker, Submitting(s, c).broker, asked[c.clientId := AskedBy(c)];
    hide Submitting, SystemOk, Linked, Of, TraceOk, Closed;
    LiveOrTold(s, c);
    ClosedBefore(br, asked, c.clientId);
    OfGrows(br.sent, br'.sent, c.clientId);
    BrokenTrace(br', asked', c.clientId, Of(br.sent, c.clientId), asked[c.clientId].quantity);
  }

  /** A submission under an id that is not live: the traces stay well-formed if and only if the
      id was never used. */
  lemma FreeIdTraces(s: System, asked: map<string, Terms>, c: Call)
    requires SystemOk(s) && Linked(s.broker) && TracesOk(s.broker, asked)
    requires c.Place? && Harmless(s, c) && 0 < c.quantity && c.clientId !in s.broker.toBroker
    ensures TracesOk(Submitting(s, c).broker, asked[c.clientId := AskedBy(c)]) <==> c.clientId !in asked
  {
    hide SystemOk, Linked, TraceOk, Submitting;
    if c.clientId in asked {
      assert TraceOk(s.broker, asked, c.clientId);
      UsedIdBreaksTrace(s, asked, c);
      assert !TraceOk(Submitting(s, c).broker, asked[c.clientId := AskedBy(c)], c.clientId);
    } else if c.price.Some? {
      PricedTraces(s, asked, c);
    } else {
      UnpricedTraces(s, asked, c);
    }
  }

  /** The shortest run that fails: two submissions without a price under one id are rejected twice. */
  lemma OneIdTwice()
    ensures var c := Place("a", "X", 5, Buy, GoodTillCancel, None);
            var s1 := Submitting(System(EMPTY, NEW_BROKER), c);
            && TracesOk(s1.broker, map["a" := AskedBy(c)])
            && !TracesOk(Submitting(s1, c).broker, map["a" := AskedBy(c)])
  {
    var c := Place("a", "X", 5, Buy, GoodTillCancel, None);
    var none: map<string, Terms> := map[];
    var s0 := System(EMPTY, NEW_BROKER);
    assert SystemOk(s0) && Linked(s0.broker) && TracesOk(s0.broker, none);
    FreeIdTraces(s0, none, c);
    CallExactly(s0, c);
    RejectionLinks(s0, c);
    var asked := none[c.clientId := AskedBy(c)];
    hide TracesOk, SystemOk, Linked;
    FreeIdTraces(Submitting(s0, c), asked, c);
    assert asked == map["a" := AskedBy(c)] && asked[c.clientId := AskedBy(c)] == asked;
  }

  // ---------- Whole runs ----------

  /** Every submission has a quantity and a client id that was never used before. */
  ghost predicate NewIdsOnly(calls: seq<Call>, used: set<string>)
    decreases |calls|
  {
    calls != [] ==>
      var c := calls[0];
      && (c.Place? ==> c.clientId !in used && 0 < c.quantity)
      && NewIdsOnly(calls[1..], if c.Place? then used + {c.clientId} else used)
  }

  /** The terms asked for, by client id. */
  function Asked(calls: seq<Call>, asked: map<string, Terms>): map<string, Terms>
    decreases |calls|
  {
    if calls == [] then asked
    else Asked(calls[1..], if calls[0].Place? then asked[calls[0].clientId := AskedBy(calls[0])] else asked)
  }

  lemma {:induction false} CallsKeepTraces(s: System, asked: map<string, Terms>, calls: seq<Call>)
    requires SystemOk(s) && Linked(s.broker) && TracesOk(s.broker, asked)
    requires HarmlessRun(s, calls) && NewIdsOnly(calls, asked.Keys)
    ensures TracesOk(CallingAll(s, calls).broker, Asked(calls, asked)) && Linked(CallingAll(s, calls).broker)
    decreases |calls|
  {
    if calls != [] {
      var c := calls[0];
      var asked' := if c.Place? then asked[c.clientId := AskedBy(c)] else asked;
      hide SystemOk, Linked, TracesOk, Calling;
      CallKeepsTraces(s, asked, c);
      assert asked'.Keys == if c.Place? then asked.Keys + {c.clientId} else asked.Keys;
      CallsKeepTraces(Calling(s, c), asked', calls[1..]);
    }
  }

  /** After every run of a new broker on an empty book in which client ids are never used twice,
      each client order has been told a well-formed story. */
  lemma EveryRunTraces(calls: seq<Call>)
    requires HarmlessRun(System(EMPTY, NEW_BROKER), calls) && NewIdsOnly(calls, {})
    ensures TracesOk(CallingAll(System(EMPTY, NEW_BROKER), calls).broker, Asked(calls, map[]))
    ensures Linked(CallingAll(System(EMPTY, NEW_BROKER), calls).broker)
  {
    var none: map<string, Terms> := map[];
    assert none.Keys == {};
    assert SystemOk(System(EMPTY, NEW_BROKER));
    CallsKeepTraces(System(EMPTY, NEW_BROKER), none, calls);
  }

  /** Submissions have a quantity and never use an id that is live at that point. */
  ghost predicate NoLiveReuse(s: System, calls: seq<Call>)
    decreases |calls|
  {
    calls != [] ==>
      var c := calls[0];
      && Harmless(s, c) && (c.Place? ==> c.clientId !in s.broker.toBroker && 0 < c.quantity)
      && NoLiveReuse(Calling(s, c), calls[1..])
  }

  /** The traces are well-formed now and after each of the calls. */
  ghost predicate AlwaysTold(s: System, asked: map<string, Terms>, calls: seq<Call>)
    decreases |calls|
  {
    && TracesOk(s.broker, asked)
    && (calls != [] ==> AlwaysTold(Calling(s, calls[0]), Asked(calls[..1], asked), calls[1..]))
  }

  lemma CallExactlyTold(s: System, asked: map<string, Terms>, c: Call)
    requires SystemOk(s) && Linked(s.broker) && TracesOk(s.broker, asked)
    requires Harmless(s, c) && (c.Place? ==> c.clientId !in s.broker.toBroker && 0 < c.quantity)
    ensures SystemOk(Calling(s, c)) && Linked(Calling(s, c).broker)
    ensures TracesOk(Calling(s, c).broker, if c.Place? then asked[c.clientId := AskedBy(c)] else asked)
            <==> (c.Place? ==> c.clientId !in asked)
  {
    hide SystemOk, Linked, TracesOk, Submitting, Cancelling, BothFinish, CanMatch;
    CallExactly(s, c);
    CallLinks(s, c);
    if c.Recall? {
      CancellationTraces(s, asked, c.clientId);
    } else {
      FreeIdTraces(s, asked, c);
    }
  }

  lemma AskedOne(calls: seq<Call>, asked: map<string, Terms>)
    requires calls != []
    ensures var c := calls[0];
            Asked(calls[..1], asked) == if c.Place? then asked[c.clientId := AskedBy(c)] else asked
  {
    assert calls[..1][1..] == [];
  }

  lemma {:induction false} CallsExactlyTold(s: System, asked: map<string, Terms>, calls: seq<Call>)
    requires SystemOk(s) && Linked(s.broker) && TracesOk(s.broker, asked) && NoLiveReuse(s, calls)
    ensures AlwaysTold(s, asked, calls) <==> NewIdsOnly(calls, asked.Keys)
    decreases |calls|
  {
    if calls != [] {
      var c := calls[0];
      var asked' := if c.Place? then asked[c.clientId := AskedBy(c)] else asked;
      hide SystemOk, Linked, TracesOk, Calling, Harmless, AskedBy;
      CallExactlyTold(s, asked, c);
      AskedOne(calls, asked);
      assert asked'.Keys == if c.Place? then asked.Keys + {c.clientId} else asked.Keys;
      if TracesOk(Calling(s, c).broker, asked') {
        CallsExactlyTold(Calling(s, c), asked', calls[1..]);
      } else {
        assert !AlwaysTold(Calling(s, c), asked', calls[1..]);
      }
    }
  }

  /** Over every run of a new broker on an empty book in which no live id is used again: every
      trace is well-formed all the time if and only if no id is used twice at all. */
  lemma EveryRunTracesExactly(calls: seq<Call>)
    requires NoLiveReuse(System(EMPTY, NEW_BROKER), calls)
    ensures AlwaysTold(System(EMPTY, NEW_BROKER), map[], calls) <==> NewIdsOnly(calls, {})
  {
    var none: map<string, Terms> := map[];
    assert none.Keys == {};
    assert SystemOk(System(EMPTY, NEW_BROKER));
    CallsExactlyTold(System(EMPTY, NEW_BROKER), none, calls);
  }
}
