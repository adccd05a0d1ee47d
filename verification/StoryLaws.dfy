/** What is said of one broker order id. Broker ids are never used again, so these laws ask nothing
    of client ids: of every order the client hears partial fills and then at most one last word. */
module StoryLaws {
  import opened Types
  import opened Matching
  import opened Server
  import opened Confirmations
  import opened BrokerModel
  import opened FillLaws
  import opened MirrorLaws
  import opened EdgeLaws

  /** The confirmations that carry broker order id `id`, in order. */
  function Story(sent: seq<Confirmation>, id: OrderId): seq<Confirmation> {
    if sent == [] then []
    else
      var last := sent[|sent| - 1];
      Story(sent[..|sent| - 1], id) + (if last.orderId == id then [last] else [])
  }

  lemma StoryMore(sent: seq<Confirmation>, c: Confirmation, id: OrderId)
    ensures Story(sent + [c], id) == if c.orderId == id then Story(sent, id) + [c] else Story(sent, id)
  {
    assert (sent + [c])[..|sent|] == sent;
  }

  // ---------- Any run at all ----------

  ghost predicate OnlyPartial(story: seq<Confirmation>) {
    forall i :: 0 <= i < |story| ==> story[i].status == PartiallyFilled
  }

  /** Partial fills, then at most one terminal status. */
  ghost predicate EndsOnce(story: seq<Confirmation>) {
    story != [] ==> OnlyPartial(story[..|story| - 1])
                    && (story[|story| - 1].status == PartiallyFilled || story[|story| - 1].status.Terminal())
  }

  lemma PartialEndsOnce(story: seq<Confirmation>, c: Confirmation)
    requires OnlyPartial(story) && (c.status == PartiallyFilled || c.status.Terminal())
    ensures EndsOnce(story) && EndsOnce(story + [c])
    ensures c.status == PartiallyFilled ==> OnlyPartial(story + [c])
  {
    assert (story + [c])[..|story|] == story;
  }

  /** A tracked order has only been partially filled, an id not given out yet was never mentioned. */
  ghost predicate WellTold(br: Broker, id: OrderId) {
    var story := Story(br.sent, id);
    && EndsOnce(story)
    && (id in br.details ==> br.details[id].brokerId == id && id <= br.counter && OnlyPartial(story))
    && (br.counter < id ==> story == [])
  }

  lemma FillWellTold(br: Broker, f: FillInfo, id: OrderId)
    requires WellTold(br, id)
    ensures WellTold(ProcessFill(br, f), id)
  {
    if Known(br, f) {
      var c := ToldOfFill(br, f);
      StoryMore(br.sent, c, id);
      hide EndsOnce, OnlyPartial, Story, ProcessFill, Known;
      if f.orderIdFilled == id {
        PartialEndsOnce(Story(br.sent, id), c);
      }
    }
  }

  /** What a fill that is not ignored says, and what it leaves of the records. */
  lemma ToldOfFill(br: Broker, f: FillInfo) returns (c: Confirmation)
    requires Known(br, f)
    ensures var br', id := ProcessFill(br, f), f.orderIdFilled;
            && br'.sent == br.sent + [c] && br'.counter == br.counter
            && c.orderId == id && (c.status == PartiallyFilled || c.status == Filled)
            && (forall x :: x != id ==> (x in br'.details <==> x in br.details))
            && (forall x :: x != id && x in br.details ==> br'.details[x] == br.details[x])
            && (id in br'.details ==> id in br.details && br'.details[id].brokerId == br.details[id].brokerId)
            && (id in br'.details ==> c.status == PartiallyFilled)
  {
    c := ProcessFill(br, f).sent[|br.sent|];
  }

  lemma {:induction false} FillsWellTold(br: Broker, fills: seq<FillInfo>, id: OrderId)
    requires WellTold(br, id)
    ensures WellTold(ProcessFills(br, fills), id)
    decreases |fills|
  {
    if fills != [] {
      FillWellTold(br, fills[0], id);
      hide WellTold, ProcessFill;
      FillsWellTold(ProcessFill(br, fills[0]), fills[1..], id);
    }
  }

  lemma AckedWellTold(br: Broker, d: Details, id: OrderId)
    requires WellTold(br, id) && d.brokerId == br.counter + 1
    ensures WellTold(Acked(br, d), id) && WellTold(Register(br, d), id)
  {
    hide Story;
  }

  /** A last word about `id`, with which its record goes, or a word about no order. */
  lemma NoticeWellTold(br: Broker, c: Confirmation, cid: string, gone: OrderId, id: OrderId)
    requires WellTold(br, id) && c.status.Terminal()
    requires c.orderId == -1 || (c.orderId == gone && gone in br.details)
    ensures WellTold(br.Send(c).Cleanup(cid, gone), id)
    ensures c.orderId == -1 ==> WellTold(br.Send(c), id)
  {
    StoryMore(br.sent, c, id);
    hide EndsOnce, OnlyPartial, Story;
    if c.orderId == id {
      PartialEndsOnce(Story(br.sent, id), c);
    }
  }

  lemma FinishWellTold(br: Broker, d: Details, status: FinalStatus, id: OrderId)
    requires WellTold(br, id)
    ensures WellTold(Finish(br, d, status), id)
  {
    if d.brokerId in br.details && status.BookRejected? {
      NoticeWellTold(br, CancelNotice(d), d.clientId, d.brokerId, id);
    }
    hide Story, EndsOnce, OnlyPartial;
  }

  lemma CallWellTold(s: System, c: Call, id: OrderId)
    requires WellTold(s.broker, id)
    ensures WellTold(Calling(s, c).broker, id)
  {
    var br := s.broker;
    hide Story, EndsOnce, OnlyPartial, Serving, Finish, ProcessFills;
    if c.Recall? {
      if Cancellable(br, c.clientId) {
        var gone := br.toBroker[c.clientId];
        var notice := CancelNotice(br.details[gone].(clientId := c.clientId, brokerId := gone));
        NoticeWellTold(br, notice, c.clientId, gone, id);
      }
    } else if c.price.None? {
      NoticeWellTold(br, Rejection(c.clientId, c.symbol, c.side), c.clientId, 0, id);
    } else {
      AnswerWellTold(br, NewDetails(br, c), Serving(s.book, AddRequest(NewDetails(br, c))).1, id);
    }
  }

  lemma AnswerWellTold(br: Broker, d: Details, response: Response, id: OrderId)
    requires WellTold(br, id) && d.brokerId == br.counter + 1
    ensures WellTold(Answered(Register(br, d), d, response), id)
  {
    AckedWellTold(br, d, id);
    if response.Ok? {
      FillsWellTold(Acked(br, d), response.fills, id);
      FinishWellTold(ProcessFills(Acked(br, d), response.fills), d, response.finalStatus, id);
    } else {
      NoticeWellTold(Register(br, d), Rejection(d.clientId, d.symbol, d.side), d.clientId, d.brokerId, id);
    }
    hide WellTold, Finish, ProcessFills;
  }

  lemma {:induction false} CallsWellTold(s: System, calls: seq<Call>, id: OrderId)
    requires WellTold(s.broker, id)
    ensures WellTold(CallingAll(s, calls).broker, id)
    decreases |calls|
  {
    if calls != [] {
      CallWellTold(s, calls[0], id);
      hide WellTold, Calling;
      CallsWellTold(Calling(s, calls[0]), calls[1..], id);
    }
  }

  /** In every run of a new broker, on whatever book, whatever is called: the confirmations that
      carry one broker order id are partial fills and then at most one terminal status. */
  lemma EveryStoryEndsOnce(b: Book, calls: seq<Call>, id: OrderId)
    ensures EndsOnce(Story(CallingAll(System(b, NEW_BROKER), calls).broker.sent, id))
  {
    CallsWellTold(System(b, NEW_BROKER), calls, id);
  }

  // ---------- Statuses ----------

  ghost predicate AllWorking(br: Broker) { forall id :: id in br.details ==> br.details[id].status == Working }

  /** But for order `x`, which may still be only acknowledged. */
  ghost predicate WorkingBut(br: Broker, x: OrderId) {
    forall id :: id in br.details ==>
      br.details[id].status == Working || (id == x && br.details[id].status == Acknowledged)
  }

  lemma {:induction false} FillsWorking(br: Broker, fills: seq<FillInfo>, x: OrderId)
    requires WorkingBut(br, x)
    ensures WorkingBut(ProcessFills(br, fills), x)
    decreases |fills|
  {
    if fills != [] {
      FillsWorking(ProcessFill(br, fills[0]), fills[1..], x);
    }
  }

  lemma CallWorking(s: System, c: Call)
    requires AllWorking(s.broker)
    ensures AllWorking(Calling(s, c).broker)
  {
    if c.Place? && c.price.Some? {
      hide Serving;
      var d := NewDetails(s.broker, c);
      var response := Serving(s.book, AddRequest(d)).1;
      if response.Ok? {
        FillsWorking(Acked(s.broker, d), response.fills, d.brokerId);
        hide ProcessFills;
      }
    }
  }

  /** In every run of a new broker, on whatever book, whatever is called: between two calls every tracked
      order is Working, whatever its fills, its acknowledgement and refused cancels made of it. */
  lemma TrackedIsWorking(b: Book, calls: seq<Call>)
    ensures AllWorking(CallingAll(System(b, NEW_BROKER), calls).broker)
  {
    StaysWorking(System(b, NEW_BROKER), calls);
  }

  lemma {:induction false} StaysWorking(s: System, calls: seq<Call>)
    requires AllWorking(s.broker)
    ensures AllWorking(CallingAll(s, calls).broker)
    decreases |calls|
  {
    if calls != [] {
      CallWorking(s, calls[0]);
      hide AllWorking, Calling;
      StaysWorking(Calling(s, calls[0]), calls[1..]);
    }
  }

  // ---------- Runs that keep broker and book in step ----------

  /** The story of order `id` tells its fills: while it is tracked they add up to its record; when it
      is gone they do not exceed its quantity and the last word is Filled exactly when they reach
      it. An order of quantity 0 may go without a word. */
  ghost predicate StoryOk(br: Broker, placed: map<OrderId, Terms>, id: OrderId) {
    var story := Story(br.sent, id);
    && (id in placed ==> id <= br.counter && Told(story, placed[id]))
    && if id in br.details then
         && id in placed && placed[id] == TermsOf(br.details[id])
         && Open(story, br.details[id].filled)
       else if id in placed then Closed(story, placed[id].quantity) || (placed[id].quantity == 0 && story == [])
       else story == []
  }

  ghost predicate StoriesOk(br: Broker, placed: map<OrderId, Terms>) { forall id :: StoryOk(br, placed, id) }

  /** Nothing happened to order `id`. */
  lemma SameStory(br: Broker, br': Broker, placed: map<OrderId, Terms>, id: OrderId)
    requires StoryOk(br, placed, id) && Story(br'.sent, id) == Story(br.sent, id) && br.counter <= br'.counter
    requires id in br'.details <==> id in br.details
    requires id in br.details ==>
               TermsOf(br'.details[id]) == TermsOf(br.details[id]) && br'.details[id].filled == br.details[id].filled
    ensures StoryOk(br', placed, id)
  {
    hide Story, Told, Open, Closed;
  }

  lemma FillStory(br: Broker, placed: map<OrderId, Terms>, f: FillInfo, id: OrderId)
    requires Tracked(br) && Heard(br, f) && StoryOk(br, placed, id)
    requires br.details[f.orderIdFilled].filled + f.tradedQuantity <= br.details[f.orderIdFilled].quantity
    requires br.details[f.orderIdFilled].price == f.price
    ensures StoryOk(ProcessFill(br, f), placed, id)
  {
    var c, d := FillNotice(br, f), br.details[f.orderIdFilled];
    TrackedFill(br, f);
    StoryMore(br.sent, c, id);
    hide ProcessFill, Tracked, Live, Story, Told, Open, Closed;
    if id != f.orderIdFilled {
      SameStory(br, ProcessFill(br, f), placed, id);
    } else {
      ToldMore(Story(br.sent, id), TermsOf(d), c);
      if d.filled + f.tradedQuantity == d.quantity {
        Closes(Story(br.sent, id), d.filled, d.quantity, c);
      } else {
        StaysOpen(Story(br.sent, id), d.filled, c);
      }
    }
  }

  lemma {:induction false} FillsStory(br: Broker, placed: map<OrderId, Terms>, fills: seq<FillInfo>, id: OrderId)
    requires Tracked(br) && Fits(br, fills) && StoryOk(br, placed, id)
    ensures StoryOk(ProcessFills(br, fills), placed, id)
    decreases |fills|
  {
    if fills != [] {
      NamedIsFilled(fills, 0);
      assert Heard(br, fills[0]);
      FillStory(br, placed, fills[0], id);
      FillKeepsTracked(br, fills[0]);
      FitsOn(br, fills);
      hide Tracked, Fits, Sized, AllNamed, StoryOk, ProcessFill;
      FillsStory(ProcessFill(br, fills[0]), placed, fills[1..], id);
    }
  }

  lemma AckedStory(br: Broker, placed: map<OrderId, Terms>, d: Details, id: OrderId)
    requires Tracked(br) && StoryOk(br, placed, id) && NewOrder(br, d)
    ensures StoryOk(Acked(br, d), placed[d.brokerId := TermsOf(d)], id)
  {
    AckedTracks(br, d);
    hide Tracked, Story;
  }

  lemma CancelStory(br: Broker, placed: map<OrderId, Terms>, gone: OrderId, c: Confirmation, id: OrderId)
    requires StoryOk(br, placed, id) && gone in br.details && br.details[gone].filled < br.details[gone].quantity
    requires c.orderId == gone && c.filled == 0 && c.status == Cancelled
    requires Says(c, TermsOf(br.details[gone]))
    ensures StoryOk(br.Send(c).Cleanup(c.clientId, gone), placed, id)
  {
    var d := br.details[gone];
    StoryMore(br.sent, c, id);
    hide Story, Told, Open, Closed;
    if id == gone {
      ToldMore(Story(br.sent, id), TermsOf(d), c);
      Closes(Story(br.sent, id), d.filled, d.quantity, c);
    } else {
      SameStory(br, br.Send(c).Cleanup(c.clientId, gone), placed, id);
    }
  }

  lemma FinishStory(br: Broker, placed: map<OrderId, Terms>, d: Details, status: FinalStatus, id: OrderId)
    requires Tracked(br) && StoryOk(br, placed, id) && SettledRecord(br, d, status)
    ensures StoryOk(Finish(br, d, status), placed, id)
  {
    if d.brokerId in br.details {
      assert Live(br, d.brokerId);
      if status.BookRejected? {
        CancelStory(br, placed, d.brokerId, CancelNotice(d), id);
      } else {
        hide Tracked, Story, Told, Open, Closed;
        SameStory(br, Finish(br, d, status), placed, id);
      }
    }
  }

  /** The terms placed under each broker id. */
  function PlacedBy(br: Broker, c: Call, placed: map<OrderId, Terms>): map<OrderId, Terms> {
    if c.Place? && c.price.Some? then placed[br.counter + 1 := AskedBy(c)] else placed
  }

  lemma PricedStory(s: System, placed: map<OrderId, Terms>, c: Call, id: OrderId)
    requires SystemOk(s) && Sound(s, c) && StoryOk(s.broker, placed, id)
    ensures StoryOk(Submitting(s, c).broker, PlacedBy(s.broker, c, placed), id)
  {
    var br, d := s.broker, NewDetails(s.broker, c);
    var r, br1, placed' := Add(s.book, OrderOf(d)), Acked(br, d), PlacedBy(br, c, placed);
    SubmissionFills(s.book, br, d);
    SettlesRecord(s.book, br, d);
    AddAnswers(s, c);
    AckedStory(br, placed, d, id);
    hide Submitting, Tracked, Fills, ProcessFills, Finish, Mirror, SettledRecord, Fits, FilledUp;
    hide Acked, Add, Registered, StoryOk;
    FillsStory(br1, placed', Fills(r.trades), id);
    FinishStory(ProcessFills(br1, Fills(r.trades)), placed', d, StatusOf(d.kind, r.left), id);
  }

  lemma RecallStory(s: System, placed: map<OrderId, Terms>, cid: string, id: OrderId)
    requires SystemOk(s) && StoryOk(s.broker, placed, id)
    ensures StoryOk(Cancelling(s, cid).broker, placed, id)
  {
    hide Cancelling, StoryOk;
    Cancellation(s, cid);
    if cid in s.broker.toBroker {
      var gone := s.broker.toBroker[cid];
      LeadsTo(s.broker, cid);
      hide Tracked, Mirror;
      CancelStory(s.broker, placed, gone, CancelNotice(s.broker.details[gone]), id);
    }
  }

  lemma ZeroStory(s: System, placed: map<OrderId, Terms>, c: Call, id: OrderId)
    requires SystemOk(s) && c.Place? && c.price.Some? && c.quantity == 0 && Harmless(s, c)
    requires StoryOk(s.broker, placed, id)
    ensures StoryOk(Submitting(s, c).broker, PlacedBy(s.broker, c, placed), id)
  {
    ZeroLeavesNothing(s, c);
    NextIsNew(s);
    hide Submitting, SystemOk, Story, Open, Closed;
  }

  lemma CallStory(s: System, placed: map<OrderId, Terms>, c: Call, id: OrderId)
    requires SystemOk(s) && Harmless(s, c) && StoryOk(s.broker, placed, id)
    ensures StoryOk(Calling(s, c).broker, PlacedBy(s.broker, c, placed), id)
  {
    if c.Recall? {
      RecallStory(s, placed, c.clientId, id);
    } else if c.price.None? {
      StoryMore(s.broker.sent, Rejection(c.clientId, c.symbol, c.side), id);
      SameStory(s.broker, Submitting(s, c).broker, placed, id);
    } else if c.quantity == 0 {
      ZeroStory(s, placed, c, id);
    } else {
      PricedStory(s, placed, c, id);
    }
    hide StoryOk, Submitting, Cancelling, SystemOk, Harmless;
  }

  /** All terms placed in a run. */
  function Placed(s: System, calls: seq<Call>, placed: map<OrderId, Terms>): map<OrderId, Terms>
    decreases |calls|
  {
    if calls == [] then placed
    else Placed(Calling(s, calls[0]), calls[1..], PlacedBy(s.broker, calls[0], placed))
  }

  lemma {:induction false} CallsStory(s: System, placed: map<OrderId, Terms>, calls: seq<Call>)
    requires SystemOk(s) && HarmlessRun(s, calls) && StoriesOk(s.broker, placed)
    ensures StoriesOk(CallingAll(s, calls).broker, Placed(s, calls, placed))
    decreases |calls|
  {
    if calls != [] {
      var s1, placed1 := Calling(s, calls[0]), PlacedBy(s.broker, calls[0], placed);
      hide SystemOk, Harmless, StoryOk, Calling, PlacedBy;
      CallExactly(s, calls[0]);
      forall id ensures StoryOk(s1.broker, placed1, id) {
        CallStory(s, placed, calls[0], id);
      }
      CallsStory(s1, placed1, calls[1..]);
    }
  }

  /** After every run that keeps broker and book in step, in whatever way client ids are used again:
      each order was told partial fills of its own terms and then at most one terminal status, the
      fills add up to its record while it is tracked and never exceed its quantity, and the last
      word is Filled exactly when they reach it. */
  lemma EveryRunStories(calls: seq<Call>)
    requires HarmlessRun(System(EMPTY, NEW_BROKER), calls)
    ensures StoriesOk(CallingAll(System(EMPTY, NEW_BROKER), calls).broker,
                      Placed(System(EMPTY, NEW_BROKER), calls, map[]))
  {
    assert SystemOk(System(EMPTY, NEW_BROKER));
    CallsStory(System(EMPTY, NEW_BROKER), map[], calls);
  }
}
