/** The order book as the C++ class keeps it (order_book/src/order_book.cpp): two maps from
    price to a list of orders, and an index from id to the order and its place in the list.
    Every public method is proved against the functions of module Matching. */
module OrderBooks {
  import opened Types
  import opened Matching
  import opened Levels
  import opened Greedy
  import opened Walking
  import opened Reachable
  import opened Priority
  import opened Snapshots

  /** order_book/src/order.cpp: one mutable field, decreased by fills. */
  class Order {
    const kind: OrderType
    const id: OrderId
    const side: Side
    const price: Price
    const initial: Quantity
    var remaining: Quantity

    constructor (kind: OrderType, id: OrderId, side: Side, price: Price, quantity: Quantity)
      ensures View() == OrderState(id, side, price, kind, quantity, quantity)
    {
      this.kind, this.id, this.side, this.price := kind, id, side, price;
      initial, remaining := quantity, quantity;
    }

    ghost function View(): OrderState
      reads this
    {
      OrderState(id, side, price, kind, initial, remaining)
    }

    predicate IsFilled()
      reads this
    {
      remaining == 0
    }

    /** Asking for more than is left throws and changes nothing. */
    method Fill(quantity: Quantity) returns (thrown: bool)
      modifies this
      ensures thrown <==> quantity > old(remaining)
      ensures View() == if thrown then old(View()) else old(View()).Fill(quantity)
    {
      thrown := quantity > remaining;
      if !thrown {
        remaining := remaining - quantity;
      }
    }
  }

  /** A node of `std::list`. Its identity is what an iterator holds. */
  class ListNode {
    const order: Order

    constructor (order: Order)
      ensures this.order == order
    {
      this.order := order;
    }
  }

  type PriceLevels = map<Price, seq<ListNode>>

  datatype OrderEntry = OrderEntry(order: Order, location: ListNode)

  /** `std::list::erase(iterator)`: the node itself goes, wherever it stands. */
  function Erase(ns: seq<ListNode>, x: ListNode): seq<ListNode> {
    if ns == [] then []
    else if ns[0] == x then ns[1..]
    else [ns[0]] + Erase(ns[1..], x)
  }

  ghost function OrdersOf(ns: seq<ListNode>): set<Order> { set n | n in ns :: n.order }

  ghost function Views(ns: seq<ListNode>): (s: seq<OrderState>)
    reads OrdersOf(ns)
    ensures |s| == |ns| && forall i :: 0 <= i < |ns| ==> s[i] == ns[i].order.View()
  {
    if ns == [] then [] else [ns[0].order.View()] + Views(ns[1..])
  }

  /** Every list holds orders of its own side and price, each once. */
  ghost predicate Filed(side: Side, m: PriceLevels) {
    forall p :: p in m ==>
      && (forall i :: 0 <= i < |m[p]| ==> m[p][i].order.side == side && m[p][i].order.price == p)
      && (forall i, j :: 0 <= i < j < |m[p]| ==> m[p][i] != m[p][j])
  }

  ghost predicate Indexed(m: PriceLevels, index: map<OrderId, OrderEntry>) {
    forall p, n :: p in m && n in m[p] ==>
      n.order.id in index && index[n.order.id] == OrderEntry(n.order, n)
  }

  ghost predicate NoEmptyLevel(m: PriceLevels) { forall p :: p in m ==> m[p] != [] }

  lemma ViewsConcat(a: seq<ListNode>, b: seq<ListNode>)
    ensures Views(a + b) == Views(a) + Views(b)
  {
  }

  lemma ViewsCons(ns: seq<ListNode>)
    requires ns != []
    ensures Views(ns) == [ns[0].order.View()] + Views(ns[1..])
  {
  }

  lemma {:induction false} InsertBehind(a: seq<OrderState>, b: seq<OrderState>, o: OrderState)
    requires forall i :: 0 <= i < |a| ==> !Better(o.side, o.price, a[i].price)
    ensures Insert(a + b, o) == a + Insert(b, o)
  {
    if a == [] {
      assert a + b == b;
    } else {
      assert (a + b)[1..] == a[1..] + b;
      InsertBehind(a[1..], b, o);
    }
  }

  function ListAt(m: PriceLevels, p: Price): seq<ListNode> { if p in m then m[p] else [] }

  /** `levels[x.order.price].push_back(x)`, which creates a missing level. */
  function Pushed(m: PriceLevels, x: ListNode): PriceLevels {
    m[x.order.price := ListAt(m, x.order.price) + [x]]
  }

  /** Pushing at the back of the list of its price inserts the order behind all orders that
      are at least as well priced. */
  lemma {:induction false} PushIsInsert(side: Side, m: PriceLevels, x: ListNode)
    requires Filed(side, m) && NoEmptyLevel(m) && x.order.side == side
    ensures Views(Flatten(side, Pushed(m, x))) == Insert(Views(Flatten(side, m)), x.order.View())
    decreases m.Keys
  {
    if forall q :: q in m ==> Better(side, x.order.price, q) {
      PushFirst(side, m, x);
    } else {
      var b := Best(side, m.Keys);
      ViewsConcat(m[b], Flatten(side, m - {b}));
      InsertBehind(Views(m[b]), Views(Flatten(side, m - {b})), x.order.View());
      PushAtOrBehind(side, m, x);
      if b == x.order.price {
        HeadWorse(side, m - {b}, x);
      } else {
        PushIsInsert(side, m - {b}, x);
      }
    }
  }

  lemma HeadWorse(side: Side, m: PriceLevels, x: ListNode)
    requires Filed(side, m) && NoEmptyLevel(m) && x.order.side == side
    requires forall q :: q in m ==> Better(side, x.order.price, q)
    ensures Insert(Views(Flatten(side, m)), x.order.View()) == [x.order.View()] + Views(Flatten(side, m))
  {
    if m != map[] {
      var b := Best(side, m.Keys);
      assert Flatten(side, m)[0] == m[b][0];
    }
  }

  /** A price ahead of every level makes a new best level. */
  lemma PushFirst(side: Side, m: PriceLevels, x: ListNode)
    requires Filed(side, m) && NoEmptyLevel(m) && x.order.side == side
    requires forall q :: q in m ==> Better(side, x.order.price, q)
    ensures Views(Flatten(side, Pushed(m, x))) == Insert(Views(Flatten(side, m)), x.order.View())
  {
    var p := x.order.price;
    assert p !in m;
    assert Pushed(m, x).Keys == m.Keys + {p};
    assert Best(side, Pushed(m, x).Keys) == p;
    assert Pushed(m, x) - {p} == m;
    assert Flatten(side, Pushed(m, x)) == [x] + Flatten(side, m);
    HeadWorse(side, m, x);
  }

  /** Any other price leaves the best level first, with `x` at its back or behind it. */
  lemma PushAtOrBehind(side: Side, m: PriceLevels, x: ListNode)
    requires m != map[] && !Better(side, x.order.price, Best(side, m.Keys))
    ensures var b := Best(side, m.Keys);
            Views(Flatten(side, Pushed(m, x))) ==
            Views(m[b]) + if b == x.order.price then [x.order.View()] + Views(Flatten(side, m - {b}))
                          else Views(Flatten(side, Pushed(m - {b}, x)))
  {
    BestStays(side, m, x);
    hide Best, Flatten, Views, Pushed;
    if Best(side, m.Keys) == x.order.price {
      PushAtBest(side, m, x);
    } else {
      PushBehindBest(side, m, x);
    }
  }

  lemma FlattenBest(side: Side, m: PriceLevels, b: Price)
    requires b in m && b == Best(side, m.Keys)
    ensures Flatten(side, m) == m[b] + Flatten(side, m - {b})
  {
  }

  lemma PushAtBest(side: Side, m: PriceLevels, x: ListNode)
    requires x.order.price in m && x.order.price == Best(side, m.Keys) == Best(side, Pushed(m, x).Keys)
    ensures var b := x.order.price;
            Views(Flatten(side, Pushed(m, x))) == Views(m[b]) + ([x.order.View()] + Views(Flatten(side, m - {b})))
  {
    var b, m' := x.order.price, Pushed(m, x);
    hide Best, Flatten, Views;
    FlattenBest(side, m', b);
    assert m' - {b} == m - {b} && m'[b] == m[b] + [x];
    ViewsConcat(m[b] + [x], Flatten(side, m - {b}));
    ViewsConcat(m[b], [x]);
    ViewsOne(x);
  }

  lemma PushBehindBest(side: Side, m: PriceLevels, x: ListNode)
    requires m != map[] && x.order.price != Best(side, m.Keys) == Best(side, Pushed(m, x).Keys)
    ensures var b := Best(side, m.Keys);
            Views(Flatten(side, Pushed(m, x))) == Views(m[b]) + Views(Flatten(side, Pushed(m - {b}, x)))
  {
    var b, m' := Best(side, m.Keys), Pushed(m, x);
    hide Best, Flatten, Views;
    FlattenBest(side, m', b);
    assert m' - {b} == Pushed(m - {b}, x) && m'[b] == m[b];
    ViewsConcat(m[b], Flatten(side, Pushed(m - {b}, x)));
  }

  lemma ViewsOne(x: ListNode)
    ensures Views([x]) == [x.order.View()]
  {
  }

  lemma BestStays(side: Side, m: PriceLevels, x: ListNode)
    requires m != map[] && !Better(side, x.order.price, Best(side, m.Keys))
    ensures Pushed(m, x) != map[] && Best(side, Pushed(m, x).Keys) == Best(side, m.Keys)
  {
    var m' := Pushed(m, x);
    assert m'.Keys == m.Keys + {x.order.price};
    assert IsBest(side, m'.Keys, Best(side, m'.Keys)) && IsBest(side, m.Keys, Best(side, m.Keys));
  }

  lemma {:induction false} RemoveConcat(a: seq<OrderState>, b: seq<OrderState>, id: OrderId)
    ensures Remove(a + b, id) == if id in IdsOf(a) then Remove(a, id) + b else a + Remove(b, id)
  {
    if a == [] {
      assert a + b == b && a + Remove(b, id) == Remove(b, id);
    } else {
      var rest := a[1..];
      assert (a + b)[0] == a[0] && (a + b)[1..] == rest + b;
      RemoveConcat(rest, b, id);
      if a[0].id != id {
        assert [a[0]] + (Remove(rest, id) + b) == ([a[0]] + Remove(rest, id)) + b;
        assert [a[0]] + (rest + Remove(b, id)) == a + Remove(b, id);
      }
    }
  }

  /** `level.erase(location)`, then the level itself when that empties it. */
  function Erased(m: PriceLevels, x: ListNode): PriceLevels {
    var l := Erase(ListAt(m, x.order.price), x);
    if l == [] then m - {x.order.price} else m[x.order.price := l]
  }

  lemma {:induction false} EraseInList(ns: seq<ListNode>, x: ListNode)
    requires x in ns && forall n :: n in ns && n.order.id == x.order.id ==> n == x
    ensures Views(Erase(ns, x)) == Remove(Views(ns), x.order.id)
  {
    if ns[0] != x {
      EraseInList(ns[1..], x);
    }
  }

  /** `x` is the only node carrying its id. */
  ghost predicate Alone(m: PriceLevels, x: ListNode) {
    forall p, n :: p in m && n in m[p] && n.order.id == x.order.id ==> n == x
  }

  lemma IdsOfViews(ns: seq<ListNode>, id: OrderId)
    ensures id in IdsOf(Views(ns)) <==> exists n :: n in ns && n.order.id == id
  {
    InIdsOf(Views(ns), id);
    if n :| n in ns && n.order.id == id {
      var i :| 0 <= i < |ns| && ns[i] == n;
      assert Views(ns)[i].id == id;
    }
  }

  /** Erasing a node removes exactly its order from the flattened side. */
  lemma {:induction false} EraseIsRemove(side: Side, m: PriceLevels, x: ListNode)
    requires Filed(side, m) && x in ListAt(m, x.order.price) && Alone(m, x)
    ensures Views(Flatten(side, Erased(m, x))) == Remove(Views(Flatten(side, m)), x.order.id)
    decreases m.Keys
  {
    var b := Best(side, m.Keys);
    ViewsConcat(m[b], Flatten(side, m - {b}));
    RemoveConcat(Views(m[b]), Views(Flatten(side, m - {b})), x.order.id);
    IdsOfViews(m[b], x.order.id);
    if b == x.order.price {
      EraseInList(m[b], x);
      EraseAtBest(side, m, x);
    } else {
      assert x !in m[b];
      EraseIsRemove(side, m - {b}, x);
      EraseBehindBest(side, m, x);
    }
  }

  lemma EraseAtBest(side: Side, m: PriceLevels, x: ListNode)
    requires x.order.price in m && Best(side, m.Keys) == x.order.price
    ensures Views(Flatten(side, Erased(m, x))) ==
            Views(Erase(m[x.order.price], x)) + Views(Flatten(side, m - {x.order.price}))
  {
    var p := x.order.price;
    var l := Erase(m[p], x);
    if l != [] {
      assert Erased(m, x).Keys == m.Keys;
      assert Erased(m, x) - {p} == m - {p};
      ViewsConcat(l, Flatten(side, m - {p}));
    }
  }

  lemma EraseBehindBest(side: Side, m: PriceLevels, x: ListNode)
    requires x.order.price in m && Best(side, m.Keys) != x.order.price
    ensures var b := Best(side, m.Keys);
            Views(Flatten(side, Erased(m, x))) == Views(m[b]) + Views(Flatten(side, Erased(m - {b}, x)))
  {
    var b := Best(side, m.Keys);
    var m' := Erased(m, x);
    assert b in m' && m'[b] == m[b];
    assert Best(side, m'.Keys) == b;
    assert m' - {b} == Erased(m - {b}, x);
    ViewsConcat(m[b], Flatten(side, m' - {b}));
  }

  /** No order object is listed twice, so the rest of a side does not hold the front order. */
  lemma FrontIsAlone(side: Side, m: PriceLevels, index: map<OrderId, OrderEntry>, p: Price, n: ListNode)
    requires Filed(side, m) && Indexed(m, index)
    requires p in m && m[p] != [] && n in Flatten(side, Popped(m, p))
    ensures n.order.id != m[p][0].order.id
  {
    InFlatten<ListNode>(side, Popped(m, p), n);
    assert m[p][0] in m[p];
  }

  /** An entry names the very list node that holds its order, at the order's side and price. */
  ghost predicate Located(side: Side, mine: PriceLevels, theirs: PriceLevels, e: OrderEntry) {
    && e.location.order == e.order
    && e.location in ListAt(if e.order.side == side then mine else theirs, e.order.price)
  }

  /** The index and the levels of both sides describe the same orders. */
  ghost predicate IndexAgrees(side: Side, mine: PriceLevels, theirs: PriceLevels, index: map<OrderId, OrderEntry>) {
    && Filed(side, mine) && Filed(side.Opposite(), theirs)
    && Indexed(mine, index) && Indexed(theirs, index)
    && (forall id :: id in index ==> index[id].order.id == id && Located(side, mine, theirs, index[id]))
  }

  function Popped(m: PriceLevels, p: Price): PriceLevels
    requires p in m && m[p] != []
  {
    m[p := m[p][1..]]
  }

  lemma PopFiled(side: Side, m: PriceLevels, p: Price)
    requires Filed(side, m) && p in m && m[p] != []
    ensures Filed(side, Popped(m, p))
  {
  }

  lemma PopIndexed(side: Side, m: PriceLevels, index: map<OrderId, OrderEntry>, p: Price)
    requires Filed(side, m) && Indexed(m, index) && p in m && m[p] != []
    ensures Indexed(Popped(m, p), index - {m[p][0].order.id})
  {
    var x := m[p][0];
    assert x in m[p];
    forall q, n | q in Popped(m, p) && n in Popped(m, p)[q] ensures n in m[q] && n.order.id != x.order.id {
      assert n in m[q];
    }
  }

  lemma OtherSideIndexed(side: Side, m: PriceLevels, index: map<OrderId, OrderEntry>, x: ListNode)
    requires Filed(side.Opposite(), m) && Indexed(m, index)
    requires x.order.side == side && x.order.id in index && index[x.order.id] == OrderEntry(x.order, x)
    ensures Indexed(m, index - {x.order.id})
  {
    assert forall q, n :: q in m && n in m[q] ==> n.order.side != side && n.order.id != x.order.id;
  }

  lemma StaysListed(m: PriceLevels, p: Price, n: ListNode)
    requires p in m && m[p] != [] && n in m[p] && n != m[p][0]
    ensures n in Popped(m, p)[p]
  {
    var i :| 0 <= i < |m[p]| && m[p][i] == n;
    assert m[p][1..][i - 1] == n;
  }

  /** Dropping the front of a level together with its index entry keeps the agreement. */
  lemma PopAgrees(side: Side, mine: PriceLevels, theirs: PriceLevels, index: map<OrderId, OrderEntry>, p: Price)
    requires IndexAgrees(side, mine, theirs, index) && p in mine && mine[p] != []
    ensures IndexAgrees(side, Popped(mine, p), theirs, index - {mine[p][0].order.id})
  {
    var x := mine[p][0];
    assert x in mine[p];
    PopFiled(side, mine, p);
    PopIndexed(side, mine, index, p);
    OtherSideIndexed(side, theirs, index, x);
    forall id | id in index && id != x.order.id ensures Located(side, Popped(mine, p), theirs, index[id]) {
      var n := index[id].location;
      if n.order.side == side && n.order.price == p {
        StaysListed(mine, p, n);
      }
    }
  }

  lemma PushAgrees(side: Side, mine: PriceLevels, theirs: PriceLevels, index: map<OrderId, OrderEntry>, x: ListNode)
    requires IndexAgrees(side, mine, theirs, index) && x.order.side == side && x.order.id !in index
    ensures IndexAgrees(side, Pushed(mine, x), theirs, index[x.order.id := OrderEntry(x.order, x)])
  {
    hide Filed, Indexed, Located;
    PushFiled(side, mine, index, x);
    PushIndexed(mine, index, x);
    StillIndexed(theirs, index, x);
    forall id | id in index ensures Located(side, Pushed(mine, x), theirs, index[id]) {
      PushLocated(side, mine, theirs, x, index[id]);
    }
    PushLocated(side, mine, theirs, x, OrderEntry(x.order, x));
  }

  lemma PushLocated(side: Side, mine: PriceLevels, theirs: PriceLevels, x: ListNode, e: OrderEntry)
    requires x.order.side == side
    requires e == OrderEntry(x.order, x) || Located(side, mine, theirs, e)
    ensures Located(side, Pushed(mine, x), theirs, e)
  {
    var l := Pushed(mine, x)[x.order.price];
    assert l[|l| - 1] == x;
  }

  lemma StillIndexed(m: PriceLevels, index: map<OrderId, OrderEntry>, x: ListNode)
    requires Indexed(m, index) && x.order.id !in index
    ensures Indexed(m, index[x.order.id := OrderEntry(x.order, x)])
  {
  }

  lemma PushFiled(side: Side, m: PriceLevels, index: map<OrderId, OrderEntry>, x: ListNode)
    requires Filed(side, m) && Indexed(m, index) && x.order.side == side && x.order.id !in index
    ensures Filed(side, Pushed(m, x))
  {
    assert x !in ListAt(m, x.order.price);
  }

  lemma PushIndexed(m: PriceLevels, index: map<OrderId, OrderEntry>, x: ListNode)
    requires Indexed(m, index) && x.order.id !in index
    ensures Indexed(Pushed(m, x), index[x.order.id := OrderEntry(x.order, x)])
  {
    forall q, n | q in Pushed(m, x) && n in Pushed(m, x)[q] ensures n == x || (q in m && n in m[q]) {
      assert n == x || n in ListAt(m, q);
    }
  }

  lemma {:induction false} InErase(ns: seq<ListNode>, x: ListNode, n: ListNode)
    requires x in ns && forall i, j :: 0 <= i < j < |ns| ==> ns[i] != ns[j]
    ensures n in Erase(ns, x) <==> n in ns && n != x
    ensures forall i, j :: 0 <= i < j < |Erase(ns, x)| ==> Erase(ns, x)[i] != Erase(ns, x)[j]
  {
    if ns[0] != x {
      InErase(ns[1..], x, n);
      InErase(ns[1..], x, ns[0]);
    }
  }

  lemma EraseAgrees(side: Side, mine: PriceLevels, theirs: PriceLevels, index: map<OrderId, OrderEntry>, x: ListNode)
    requires IndexAgrees(side, mine, theirs, index)
    requires x.order.side == side && x in ListAt(mine, x.order.price)
    ensures IndexAgrees(side, Erased(mine, x), theirs, index - {x.order.id})
  {
    var p := x.order.price;
    OtherSideIndexed(side, theirs, index, x);
    forall n ensures n in Erase(mine[p], x) <==> n in mine[p] && n != x {
      InErase(mine[p], x, n);
    }
    EraseFiled(side, mine, x);
    EraseIndexed(side, mine, index, x);
    hide Filed, Indexed, Erase, Located, Erased;
    forall id | id in index && id != x.order.id ensures Located(side, Erased(mine, x), theirs, index[id]) {
      EraseLocated(side, mine, theirs, index[id], x);
    }
  }

  lemma EraseLocated(side: Side, mine: PriceLevels, theirs: PriceLevels, e: OrderEntry, x: ListNode)
    requires Located(side, mine, theirs, e) && e.order.id != x.order.id && x.order.side == side
    requires x.order.price in mine
    requires forall n :: n in Erase(mine[x.order.price], x) <==> n in mine[x.order.price] && n != x
    ensures Located(side, Erased(mine, x), theirs, e)
  {
    assert e.location != x;
    hide Erase;
  }

  lemma EraseFiled(side: Side, m: PriceLevels, x: ListNode)
    requires Filed(side, m) && x in ListAt(m, x.order.price)
    ensures Filed(side, Erased(m, x))
  {
    var p := x.order.price;
    InErase(m[p], x, x);
    forall i | 0 <= i < |Erase(m[p], x)| ensures Erase(m[p], x)[i] in m[p] {
      InErase(m[p], x, Erase(m[p], x)[i]);
    }
  }

  lemma EraseIndexed(side: Side, m: PriceLevels, index: map<OrderId, OrderEntry>, x: ListNode)
    requires Filed(side, m) && Indexed(m, index) && x in ListAt(m, x.order.price)
    ensures Indexed(Erased(m, x), index - {x.order.id})
  {
    forall q, n | q in Erased(m, x) && n in Erased(m, x)[q] ensures n in m[q] && n.order.id != x.order.id {
      if q == x.order.price {
        InErase(m[q], x, n);
      }
      assert n in m[q];
    }
  }

  /** The same levels, all but that at `p` unchanged. */
  ghost predicate SameBut(before: PriceLevels, after: PriceLevels, p: Price) {
    before.Keys == after.Keys && forall q :: q in before && q != p ==> after[q] == before[q]
  }

  lemma DroppedLevel(before: PriceLevels, m: PriceLevels, p: Price)
    requires SameBut(before, m, p) && p in before
    ensures p in m && |m| == |before| && |m - {p}| == |before| - 1
    ensures NoEmptyLevel(before) ==> NoEmptyLevel(if m[p] == [] then m - {p} else m)
  {
    assert |m| == |m.Keys| && |before| == |before.Keys|;
    assert (m - {p}).Keys == m.Keys - {p};
    assert |m - {p}| == |(m - {p}).Keys|;
  }

  /** Erasing an exhausted level keeps the agreement. */
  lemma DropAgrees(side: Side, mine: PriceLevels, theirs: PriceLevels, index: map<OrderId, OrderEntry>, p: Price)
    requires IndexAgrees(side, mine, theirs, index) && ListAt(mine, p) == []
    ensures IndexAgrees(side, mine - {p}, theirs, index)
  {
    forall id | id in index ensures Located(side, mine - {p}, theirs, index[id]) {
      assert Located(side, mine, theirs, index[id]);
    }
  }

  /** From `before`, matching makes `trades` and then goes on from `after`. */
  ghost predicate Continues(before: Book, trades: seq<Trade>, after: Book) {
    var r := Match(Buy, after.bids, after.asks);
    Match(Buy, before.bids, before.asks) == MatchResult(r.mine, r.theirs, trades + r.trades)
  }

  lemma ContinuesNil(b: Book)
    ensures Continues(b, [], b)
  {
  }

  lemma ContinuesOne(b: Book, t: Trade, after: Book)
    requires b.bids != [] && b.asks != [] && b.bids[0].price >= b.asks[0].price
    requires var q := Min(b.bids[0].remaining, b.asks[0].remaining);
             && t == MakeTrade(Buy, b.bids[0], b.asks[0], q)
             && after == Book(DropFilled(b.bids[0].Fill(q), b.bids[1..]), DropFilled(b.asks[0].Fill(q), b.asks[1..]))
    ensures Continues(b, [t], after)
  {
  }

  lemma ContinuesOn(a: Book, s: seq<Trade>, b: Book, t: seq<Trade>, c: Book)
    requires Continues(a, s, b) && Continues(b, t, c)
    ensures Continues(a, s + t, c)
  {
    hide Match;
    var r := Match(Buy, c.bids, c.asks);
    assert s + (t + r.trades) == (s + t) + r.trades;
  }

  lemma ContinuesEnd(a: Book, trades: seq<Trade>, b: Book)
    requires Continues(a, trades, b)
    requires b.bids == [] || b.asks == [] || b.bids[0].price < b.asks[0].price
    ensures MatchResult(b.bids, b.asks, trades) == Match(Buy, a.bids, a.asks)
  {
  }

  lemma AgreeFlip(side: Side, mine: PriceLevels, theirs: PriceLevels, index: map<OrderId, OrderEntry>)
    requires IndexAgrees(side, mine, theirs, index)
    ensures IndexAgrees(side.Opposite(), theirs, mine, index)
  {
  }

  lemma {:induction false} FlattenDistinct(side: Side, m: PriceLevels, i: nat, j: nat)
    requires Filed(side, m) && i < |Flatten(side, m)| && j < |Flatten(side, m)|
    requires Flatten(side, m)[i] == Flatten(side, m)[j]
    ensures i == j
    decreases m.Keys
  {
    var p := Best(side, m.Keys);
    var k := |m[p]|;
    if i >= k && j >= k {
      FlattenDistinct(side, m - {p}, i - k, j - k);
    } else if i >= k || j >= k {
      InFlatten<ListNode>(side, m - {p}, Flatten(side, m - {p})[if i >= k then i - k else j - k]);
    }
  }

  lemma FiledApart(side: Side, m: PriceLevels, p: Price)
    requires Filed(side, m) && p in m
    ensures Filed(side, m - {p})
    ensures forall i :: 0 <= i < |m[p]| ==> Views(m[p])[i].price == p
  {
  }

  /** The quantity resting at one price is that of its level. */
  lemma {:induction false} RestingAtLevel(side: Side, m: PriceLevels, p: Price)
    requires Filed(side, m)
    ensures Resting(Views(Flatten(side, m)), Only(p)) == Resting(Views(ListAt(m, p)), Any)
    decreases m.Keys
  {
    if m != map[] {
      var b := Best(side, m.Keys);
      FiledApart(side, m, b);
      hide Filed;
      ViewsConcat(m[b], Flatten(side, m - {b}));
      RestingConcat(Views(m[b]), Views(Flatten(side, m - {b})), Only(p));
      RestingAtOnePrice(Views(m[b]), b, p);
      RestingAtLevel(side, m - {b}, p);
    }
  }

  lemma OccupiedLevels(side: Side, m: PriceLevels, p: Price)
    requires Filed(side, m) && NoEmptyLevel(m)
    ensures Occupied(Views(Flatten(side, m)), p) <==> p in m
  {
    var ns := Flatten(side, m);
    if p in m {
      InFlatten(side, m, m[p][0]);
      var i :| 0 <= i < |ns| && ns[i] == m[p][0];
      assert Views(ns)[i].price == p;
    }
    if i :| 0 <= i < |ns| && Views(ns)[i].price == p {
      InFlatten(side, m, ns[i]);
    }
  }

  /** Adding an order: insert, match, and take out what is left of a Fill-And-Kill order. */
  lemma AddInParts(b: Book, o: OrderState, crossed: Book, matched: Book, trades: seq<Trade>)
    requires o.id !in b.Ids() && (o.kind.FillAndKill? ==> Matching.CanMatch(b, o.side, o.price))
    requires crossed == b.With(o.side, Insert(b.On(o.side), o))
    requires MatchResult(matched.bids, matched.asks, trades) == Match(Buy, crossed.bids, crossed.asks)
    ensures var left := RemainingOf(matched.On(o.side), o.id);
            var kept := if o.kind.FillAndKill? && left != 0
                        then matched.With(o.side, Remove(matched.On(o.side), o.id)) else matched;
            Add(b, o) == AddResult(kept, trades, true, left)
  {
    MatchFlip(Buy, crossed.bids, crossed.asks);
    hide Match, Insert, Remove, Matching.CanMatch, RemainingOf;
  }

  class OrderBook {
    var bids: PriceLevels
    var asks: PriceLevels
    var index: map<OrderId, OrderEntry>

    constructor ()
      ensures Valid() && Contents() == EMPTY && Orders() == {}
    {
      bids, asks, index := map[], map[], map[];
    }

    function LevelsOn(side: Side): PriceLevels
      reads this
    {
      if side.Buy? then bids else asks
    }

    ghost function Nodes(side: Side): seq<ListNode>
      reads this
    {
      Flatten(side, LevelsOn(side))
    }

    /** The abstract value: both sides in price-time priority. */
    ghost function Contents(): Book
      reads this, OrdersOf(Nodes(Buy)), OrdersOf(Nodes(Sell))
    {
      Book(Views(Nodes(Buy)), Views(Nodes(Sell)))
    }

    /** The order objects the index refers to. */
    ghost function Orders(): set<Order>
      reads this
    {
      set id | id in index :: index[id].order
    }

    /** The three structures agree; levels may be empty. */
    ghost predicate Consistent()
      reads this
    {
      IndexAgrees(Buy, bids, asks, index)
    }

    ghost predicate Valid()
      reads this
    {
      Consistent() && NoEmptyLevel(bids) && NoEmptyLevel(asks)
    }

    predicate CanMatch(side: Side, price: Price)
      reads this
    {
      if side.Buy? then asks != map[] && price >= Best(Sell, asks.Keys)
      else bids != map[] && price <= Best(Buy, bids.Keys)
    }

    /** `Size()` is the number of index entries. */
    function Size(): nat
      reads this
    {
      |index|
    }

    lemma NodeIsIndexed(side: Side, n: ListNode)
      requires Consistent() && n in Nodes(side)
      ensures n in ListAt(LevelsOn(side), n.order.price) && n.order.side == side
      ensures n.order.id in index && index[n.order.id] == OrderEntry(n.order, n) && n.order in Orders()
    {
      InFlatten(side, LevelsOn(side), n);
    }

    /** `p` is the best level of `side` and has an order in it. */
    ghost predicate HasFront(side: Side, p: Price)
      reads this
    {
      p in LevelsOn(side) && p == Best(side, LevelsOn(side).Keys) && LevelsOn(side)[p] != []
    }

    /** The front of the best level is the front of the side, and nothing else holds its order. */
    lemma Front(side: Side, p: Price)
      requires Consistent() && HasFront(side, p)
      ensures var x := LevelsOn(side)[p][0];
              && x.order.side == side && x.order.price == p
              && x.order.id in index && index[x.order.id] == OrderEntry(x.order, x)
              && Nodes(side) == [x] + Nodes(side)[1..]
              && Nodes(side)[1..] == Flatten(side, Popped(LevelsOn(side), p))
              && x.order !in OrdersOf(Nodes(side)[1..]) && x.order !in OrdersOf(Nodes(side.Opposite()))
    {
      var m: PriceLevels := LevelsOn(side);
      FlattenFront(side, m, p);
      NodeIsIndexed(side, m[p][0]);
      forall n | n in Nodes(side)[1..] ensures n.order != m[p][0].order {
        FrontIsAlone(side, m, index, p, n);
      }
      forall n | n in Nodes(side.Opposite()) ensures n.order != m[p][0].order {
        NodeIsIndexed(side.Opposite(), n);
      }
    }

    /** Entries only leave the index. */
    ghost predicate EntriesKept(before: map<OrderId, OrderEntry>)
      reads this
    {
      forall id :: id in index ==> id in before && before[id] == index[id]
    }

    /** `x` is indexed under its id, or has nothing left to fill. */
    ghost predicate Settled(x: Order)
      reads this, x
    {
      x.remaining == 0 || (x.id in index && index[x.id].order == x)
    }

    /** Lines 42-52: fill the two front orders by the smaller remaining quantity. */
    method FillFronts(bidPrice: Price, askPrice: Price) returns (trade: Trade)
      requires Consistent() && HasFront(Buy, bidPrice) && HasFront(Sell, askPrice)
      modifies Orders()
      ensures var b, a := old(Contents()).bids, old(Contents()).asks;
              && b != [] && a != []
              && b[0].price == bidPrice && a[0].price == askPrice
              && var q := Min(b[0].remaining, a[0].remaining);
              && trade == MakeTrade(Buy, b[0], a[0], q)
              && Contents() == Book([b[0].Fill(q)] + b[1..], [a[0].Fill(q)] + a[1..])
      ensures forall x: Order :: old(allocated(x)) && old(Settled(x)) ==> Settled(x)
    {
      hide IndexAgrees, Views;
      Front(Buy, bidPrice);
      Front(Sell, askPrice);
      var bid, ask := bids[bidPrice][0].order, asks[askPrice][0].order;
      ghost var b, a := Views(Nodes(Buy)[1..]), Views(Nodes(Sell)[1..]);
      ViewsCons(Nodes(Buy));
      ViewsCons(Nodes(Sell));
      var q := Min(bid.remaining, ask.remaining);
      var thrown := bid.Fill(q);
      assert !thrown;
      thrown := ask.Fill(q);
      assert !thrown;
      trade := Trade(TradeInfo(bid.id, bid.price, q), TradeInfo(ask.id, ask.price, q));
      assert Views(Nodes(Buy)[1..]) == b && Views(Nodes(Sell)[1..]) == a;
      ViewsCons(Nodes(Buy));
      ViewsCons(Nodes(Sell));
    }

    /** Lines 54-61, for one side: a filled front order leaves the index and its list. */
    method DropFront(side: Side, p: Price)
      requires Consistent() && HasFront(side, p)
      modifies this
      ensures Consistent()
      ensures var o := old(LevelsOn(side)[p][0].order);
              if o.remaining == 0
              then LevelsOn(side) == Popped(old(LevelsOn(side)), p) && index == old(index) - {o.id}
              else LevelsOn(side) == old(LevelsOn(side)) && index == old(index)
      ensures LevelsOn(side.Opposite()) == old(LevelsOn(side.Opposite()))
      ensures old(Contents()).On(side) != []
      ensures old(Contents()).On(side)[0] == old(LevelsOn(side)[p][0].order.View())
      ensures var s := old(Contents()).On(side);
              Contents() == old(Contents()).With(side, DropFilled(s[0], s[1..]))
      ensures forall x: Order :: old(allocated(x)) && old(Settled(x)) ==> Settled(x)
    {
      hide IndexAgrees, Views;
      Front(side, p);
      ViewsCons(Nodes(side));
      if side.Buy? {
        if bids[p][0].order.IsFilled() {
          PopAgrees(Buy, bids, asks, index, p);
          index := index - {bids[p][0].order.id};
          bids := Popped(bids, p);
        }
      } else {
        if asks[p][0].order.IsFilled() {
          AgreeFlip(Buy, bids, asks, index);
          PopAgrees(Sell, asks, bids, index, p);
          AgreeFlip(Sell, Popped(asks, p), bids, index - {asks[p][0].order.id});
          index := index - {asks[p][0].order.id};
          asks := Popped(asks, p);
        }
      }
    }

    /** The body of the inner loop (lines 39-61). */
    method MatchFronts(bidPrice: Price, askPrice: Price) returns (trade: Trade)
      requires Consistent() && HasFront(Buy, bidPrice) && HasFront(Sell, askPrice)
      modifies this, Orders()
      ensures Consistent()
      ensures bids == old(bids) || bids == old(Popped(bids, bidPrice))
      ensures asks == old(asks) || asks == old(Popped(asks, askPrice))
      ensures bids != old(bids) || asks != old(asks)
      ensures Orders() <= old(Orders()) && EntriesKept(old(index))
      ensures forall x: Order :: old(allocated(x)) && old(Settled(x)) ==> Settled(x)
      ensures var b, a := old(Contents()).bids, old(Contents()).asks;
              && b != [] && a != []
              && b[0].price == bidPrice && a[0].price == askPrice
              && var q := Min(b[0].remaining, a[0].remaining);
              && trade == MakeTrade(Buy, b[0], a[0], q)
              && Contents() == Book(DropFilled(b[0].Fill(q), b[1..]), DropFilled(a[0].Fill(q), a[1..]))
    {
      hide IndexAgrees, Views, Flatten, Nodes, OrdersOf, Best;
      Front(Buy, bidPrice);
      Front(Sell, askPrice);
      trade := FillFronts(bidPrice, askPrice);
      DropFront(Buy, bidPrice);
      DropFront(Sell, askPrice);
    }

    /** The front of a side is priced at its best level. */
    lemma BestPrice(side: Side)
      requires Valid()
      ensures Contents().On(side) == [] <==> LevelsOn(side) == map[]
      ensures LevelsOn(side) != map[] ==> Contents().On(side)[0].price == Best(side, LevelsOn(side).Keys)
    {
      if LevelsOn(side) != map[] {
        Front(side, Best(side, LevelsOn(side).Keys));
      }
    }

    /** Lines 64-65, for one side. */
    method DropLevel(side: Side, p: Price)
      requires Consistent() && p in LevelsOn(side) && p == Best(side, LevelsOn(side).Keys)
      modifies this
      ensures Consistent() && index == old(index) && Contents() == old(Contents())
      ensures LevelsOn(side) == if old(LevelsOn(side)[p]) == [] then old(LevelsOn(side)) - {p} else old(LevelsOn(side))
      ensures LevelsOn(side.Opposite()) == old(LevelsOn(side.Opposite()))
    {
      hide IndexAgrees, Views;
      if LevelsOn(side)[p] == [] {
        FlattenDrop(side, LevelsOn(side), p);
        if side.Buy? {
          DropAgrees(Buy, bids, asks, index, p);
          bids := bids - {p};
        } else {
          AgreeFlip(Buy, bids, asks, index);
          DropAgrees(Sell, asks, bids, index, p);
          AgreeFlip(Sell, asks - {p}, bids, index);
          asks := asks - {p};
        }
      }
    }

    /** Lines 26-27: these are the best levels of the two sides, and they cross. */
    ghost predicate BestLevels(bidPrice: Price, askPrice: Price)
      reads this
    {
      && bidPrice in bids && bidPrice == Best(Buy, bids.Keys)
      && askPrice in asks && askPrice == Best(Sell, asks.Keys)
      && bidPrice >= askPrice
    }

    /** The inner loop (lines 38-62): trade two levels against each other until one is empty. */
    method MatchLevels(bidPrice: Price, askPrice: Price) returns (trades: seq<Trade>)
      requires Consistent() && BestLevels(bidPrice, askPrice)
      modifies this, Orders()
      ensures Consistent() && Orders() <= old(Orders()) && EntriesKept(old(index))
      ensures SameBut(old(bids), bids, bidPrice) && SameBut(old(asks), asks, askPrice)
      ensures bids[bidPrice] == [] || asks[askPrice] == []
      ensures Continues(old(Contents()), trades, Contents())
      ensures forall x: Order :: old(allocated(x)) && old(Settled(x)) ==> Settled(x)
    {
      hide IndexAgrees, Views, Flatten, Nodes, OrdersOf, Continues;
      trades := [];
      ContinuesNil(Contents());
      while bids[bidPrice] != [] && asks[askPrice] != []
        invariant Consistent() && Orders() <= old(Orders()) && EntriesKept(old(index))
        invariant SameBut(old(bids), bids, bidPrice) && SameBut(old(asks), asks, askPrice)
        invariant Continues(old(Contents()), trades, Contents())
        invariant forall x: Order :: old(allocated(x)) && old(Settled(x)) ==> Settled(x)
        decreases |bids[bidPrice]| + |asks[askPrice]|
      {
        ghost var before := Contents();
        var trade := MatchFronts(bidPrice, askPrice);
        ContinuesOne(before, trade, Contents());
        ContinuesOn(old(Contents()), trades, before, [trade], Contents());
        trades := trades + [trade];
      }
    }

    /** The rest of the outer loop's body (lines 38-65): the levels left empty go. */
    method MatchBest(bidPrice: Price, askPrice: Price) returns (trades: seq<Trade>)
      requires Consistent() && BestLevels(bidPrice, askPrice)
      modifies this, Orders()
      ensures Consistent() && Orders() <= old(Orders()) && EntriesKept(old(index))
      ensures old(Valid()) ==> Valid()
      ensures |bids| + |asks| < old(|bids| + |asks|)
      ensures Continues(old(Contents()), trades, Contents())
      ensures forall x: Order :: old(allocated(x)) && old(Settled(x)) ==> Settled(x)
    {
      hide IndexAgrees, Views, Flatten, Nodes, OrdersOf, Continues;
      trades := MatchLevels(bidPrice, askPrice);
      hide SameBut, NoEmptyLevel, Best;
      DroppedLevel(old(bids), bids, bidPrice);
      DroppedLevel(old(asks), asks, askPrice);
      DropLevel(Buy, bidPrice);
      DropLevel(Sell, askPrice);
    }

    /** No order of a side is better priced than its best level, empty levels included. */
    lemma NoneBetter(side: Side)
      requires Consistent()
      ensures Contents().On(side) != [] ==>
                && LevelsOn(side) != map[]
                && !Better(side, Contents().On(side)[0].price, Best(side, LevelsOn(side).Keys))
    {
      hide IndexAgrees, Flatten, Views;
      if Nodes(side) != [] {
        assert Nodes(side)[0] in Nodes(side);
        NodeIsIndexed(side, Nodes(side)[0]);
        assert Contents().On(side)[0] == Nodes(side)[0].order.View();
      }
    }

    /** The nested loops end on every consistent book, crossed or not, with empty levels or
        without and whatever the remaining quantities, and match exactly as the flattened sides
        do. */
    method MatchOrders() returns (trades: seq<Trade>)
      requires Consistent()
      modifies this, Orders()
      ensures Consistent() && Orders() <= old(Orders()) && EntriesKept(old(index))
      ensures old(Valid()) ==> Valid()
      ensures MatchResult(Contents().bids, Contents().asks, trades)
              == Match(Buy, old(Contents()).bids, old(Contents()).asks)
      ensures forall x: Order :: old(allocated(x)) && old(Settled(x)) ==> Settled(x)
      ensures |trades| <= old(Size()) - Size() <= 2 * |trades|
    {
      hide IndexAgrees, Views, Flatten, Nodes, OrdersOf, Continues, Match;
      trades := [];
      ContinuesNil(Contents());
      SizeIs();
      TradesAreBounded(Buy, Contents().bids, Contents().asks);
      while true
        invariant Consistent() && Orders() <= old(Orders()) && EntriesKept(old(index))
        invariant old(Valid()) ==> Valid()
        invariant Continues(old(Contents()), trades, Contents())
        invariant forall x: Order :: old(allocated(x)) && old(Settled(x)) ==> Settled(x)
        decreases |bids| + |asks|
      {
        NoneBetter(Buy);
        NoneBetter(Sell);
        if bids == map[] || asks == map[] {
          break;
        }
        var bidPrice, askPrice := Best(Buy, bids.Keys), Best(Sell, asks.Keys);
        if bidPrice < askPrice {
          break;
        }
        ghost var before := Contents();
        var more := MatchBest(bidPrice, askPrice);
        ContinuesOn(old(Contents()), trades, before, more, Contents());
        trades := trades + more;
      }
      ContinuesEnd(old(Contents()), trades, Contents());
      SizeIs();
    }

    /** The ids on a side are the index keys of orders of that side. */
    lemma IdsOnSide(side: Side, id: OrderId)
      requires Consistent()
      ensures id in IdsOf(Contents().On(side)) <==> id in index && index[id].order.side == side
    {
      IdsOfViews(Nodes(side), id);
      if n :| n in Nodes(side) && n.order.id == id {
        NodeIsIndexed(side, n);
      }
      if id in index && index[id].order.side == side {
        EntryIsListed(id);
      }
    }

    lemma EntryIsListed(id: OrderId)
      requires Consistent() && id in index
      ensures index[id].location in Nodes(index[id].order.side)
      ensures index[id].location.order == index[id].order && index[id].order.id == id
    {
      var o := index[id].order;
      assert Located(Buy, bids, asks, index[id]);
      InFlatten(o.side, LevelsOn(o.side), index[id].location);
    }

    lemma IdsAreKeys()
      requires Consistent()
      ensures Contents().Ids() == index.Keys
    {
      hide IndexAgrees, Views, Flatten;
      forall id ensures id in Contents().Ids() <==> id in index {
        IdsOnSide(Buy, id);
        IdsOnSide(Sell, id);
      }
    }

    /** The order object an id names is the one whose quantity the book shows. */
    lemma RemainingIs(id: OrderId)
      requires Consistent() && id in index
      ensures RemainingOf(Contents().On(index[id].order.side), id) == index[id].order.remaining
    {
      EntryIsListed(id);
      var ns := Nodes(index[id].order.side);
      var i :| 0 <= i < |ns| && ns[i] == index[id].location;
      forall j | 0 <= j < |ns| && Views(ns)[j].id == id ensures j == i {
        NodesAreDistinct(index[id].order.side, i, j);
      }
      RemainingAt(Views(ns), i);
    }

    lemma NodesAreDistinct(side: Side, i: nat, j: nat)
      requires Consistent() && i < |Nodes(side)| && j < |Nodes(side)|
      requires Nodes(side)[i].order.id == Nodes(side)[j].order.id
      ensures i == j
    {
      NodeIsIndexed(side, Nodes(side)[i]);
      NodeIsIndexed(side, Nodes(side)[j]);
      FlattenDistinct(side, LevelsOn(side), i, j);
    }

    /** Lines 101-110: the node goes to the back of its level and into the index. */
    method Link(node: ListNode)
      requires Valid() && node.order.id !in index
      modifies this
      ensures Valid() && index == old(index)[node.order.id := OrderEntry(node.order, node)]
      ensures var o := node.order;
              Contents() == old(Contents()).With(o.side, Insert(old(Contents()).On(o.side), o.View()))
    {
      hide Views, Flatten, IndexAgrees;
      NodeInserts(node);
      var order := node.order;
      if order.side.Buy? {
        PushAgrees(Buy, bids, asks, index, node);
        bids := Pushed(bids, node);
      } else {
        AgreeFlip(Buy, bids, asks, index);
        PushAgrees(Sell, asks, bids, index, node);
        AgreeFlip(Sell, Pushed(asks, node), bids, index[order.id := OrderEntry(order, node)]);
        asks := Pushed(asks, node);
      }
      index := index[order.id := OrderEntry(order, node)];
    }

    lemma NodeInserts(node: ListNode)
      requires Valid()
      ensures var o, levels := node.order, LevelsOn(node.order.side);
              && NoEmptyLevel(Pushed(levels, node))
              && Views(Flatten(o.side, Pushed(levels, node))) == Insert(Contents().On(o.side), o.View())
    {
      PushIsInsert(node.order.side, LevelsOn(node.order.side), node);
    }

    /** Lines 100-110. */
    method PushBack(order: Order)
      requires Valid() && order.id !in index
      modifies this
      ensures Valid() && Orders() == old(Orders()) + {order}
      ensures order.id in index && index[order.id].order == order
      ensures Contents() == old(Contents()).With(order.side, Insert(old(Contents()).On(order.side), order.View()))
    {
      hide Views, Flatten, IndexAgrees, Filed, Insert;
      var node := new ListNode(order);
      assert Views(Nodes(Buy)) == old(Views(Nodes(Buy)));
      assert Views(Nodes(Sell)) == old(Views(Nodes(Sell)));
      Link(node);
      assert index.Keys == old(index.Keys) + {order.id};
      assert Orders() <= old(Orders()) + {order};
    }

    method CancelOrderInternal(id: OrderId)
      requires Valid() && id in index
      modifies this
      ensures Valid() && index == old(index) - {id}
      ensures Contents() == Cancel(old(Contents()), id)
    {
      hide Views, Flatten, IndexAgrees;
      var entry := index[id];
      IdsOnSide(Buy, id);
      IdsOnSide(Sell, id);
      EntryErases(id);
      if entry.order.side.Sell? {
        AgreeFlip(Buy, bids, asks, index);
        EraseAgrees(Sell, asks, bids, index, entry.location);
        AgreeFlip(Sell, Erased(asks, entry.location), bids, index - {id});
        asks := Erased(asks, entry.location);
      } else {
        EraseAgrees(Buy, bids, asks, index, entry.location);
        bids := Erased(bids, entry.location);
      }
      index := index - {id};
    }

    lemma EntryErases(id: OrderId)
      requires Consistent() && id in index
      ensures var o, x := index[id].order, index[id].location;
              && o.id == id && x.order == o && x in ListAt(LevelsOn(o.side), o.price)
              && Views(Flatten(o.side, Erased(LevelsOn(o.side), x))) == Remove(Contents().On(o.side), id)
    {
      var x := index[id].location;
      assert Located(Buy, bids, asks, index[id]);
      EraseIsRemove(x.order.side, LevelsOn(x.order.side), x);
    }

    method CancelOrder(id: OrderId) returns (cancelled: bool)
      requires Valid()
      modifies this
      ensures Valid() && index == old(index) - {id}
      ensures cancelled <==> id in old(Contents()).Ids()
      ensures Contents() == Cancel(old(Contents()), id)
    {
      hide Views, Flatten, IndexAgrees, NoEmptyLevel, Remove;
      IdsAreKeys();
      cancelled := id in index;
      if cancelled {
        CancelOrderInternal(id);
      }
    }

    /** Lines 114-122: a Fill-And-Kill order does not stay. */
    method KillRest(order: Order)
      requires Valid() && Settled(order) && (order.id in index ==> index[order.id].order == order)
      modifies this
      ensures Valid() && Orders() <= old(Orders())
      ensures var b := old(Contents());
              Contents() == if order.kind.FillAndKill? && order.remaining != 0
                            then b.With(order.side, Remove(b.On(order.side), order.id)) else b
    {
      hide Views, Flatten, IndexAgrees, NoEmptyLevel, Remove;
      if order.kind.FillAndKill? && !order.IsFilled() {
        if order.id in index {
          IdsOnSide(Buy, order.id);
          IdsOnSide(Sell, order.id);
          CancelOrderInternal(order.id);
        }
      }
    }

    /** Lines 100-122: insert, match, and take out what is left of a Fill-And-Kill order. */
    method InsertAndMatch(order: Order) returns (trades: seq<Trade>)
      requires Valid() && order.id !in index
      requires order.kind.FillAndKill? ==> Matching.CanMatch(Contents(), order.side, order.price)
      modifies this, order, Orders()
      ensures Valid() && Orders() <= old(Orders()) + {order}
      ensures AddResult(Contents(), trades, true, order.remaining) == Add(old(Contents()), old(order.View()))
    {
      hide Views, Flatten, Consistent, NoEmptyLevel, Match, Insert, Remove, Size;
      hide Add;
      IdsAreKeys();
      ghost var before, o := Contents(), order.View();
      PushBack(order);
      ghost var crossed := Contents();
      assert Settled(order);
      trades := MatchOrders();
      AddInParts(before, o, crossed, Contents(), trades);
      LeftOf(order);
      KillRest(order);
    }

    /** `submitted` is null exactly when the id is already in the book. On a book that keeps the
        invariant, an order with something to fill walks the other side and the invariant
        holds again. */
    method AddOrder(order: Order) returns (trades: seq<Trade>, submitted: Order?)
      requires Valid()
      modifies this, order, Orders()
      ensures Valid() && Orders() <= old(Orders()) + {order}
      ensures submitted == null || submitted == order
      ensures submitted == null ==> trades == []
      ensures AddResult(Contents(), trades, submitted != null, order.remaining)
              == Add(old(Contents()), old(order.View()))
      ensures Inv(old(Contents())) && 0 < old(order.remaining) <= order.initial ==>
                && AddResult(Contents(), trades, submitted != null, order.remaining)
                   == GreedyAdd(old(Contents()), old(order.View()))
                && Inv(Contents())
    {
      hide Views, Flatten, Consistent, Match, Insert, Size, Inv, GreedyAdd, Remove;
      if Inv(Contents()) && 0 < order.remaining <= order.initial {
        AddIsGreedy(Contents(), order.View());
        AddKeepsInv(Contents(), order.View());
      }
      IdsAreKeys();
      if order.id in index {
        return [], null;
      }
      CanMatchIs(order.side, order.price);
      if order.kind.FillAndKill? && !CanMatch(order.side, order.price) {
        return [], order;
      }
      trades := InsertAndMatch(order);
      submitted := order;
    }

    lemma CanMatchIs(side: Side, price: Price)
      requires Valid()
      ensures CanMatch(side, price) <==> Matching.CanMatch(Contents(), side, price)
    {
      BestPrice(Buy);
      BestPrice(Sell);
    }

    /** What is left of a settled order is what the book shows of it. */
    lemma LeftOf(order: Order)
      requires Consistent() && Settled(order)
      requires order.id in index ==> index[order.id].order == order
      ensures RemainingOf(Contents().On(order.side), order.id) == order.remaining
    {
      if order.id in index {
        RemainingIs(order.id);
      } else {
        IdsOnSide(order.side, order.id);
        RemainingOfNone(Contents().On(order.side), order.id);
      }
    }

    lemma SideIsDistinct(side: Side)
      requires Consistent()
      ensures Distinct(Contents().On(side))
    {
      hide IndexAgrees, Flatten;
      forall i, j | 0 <= i < j < |Nodes(side)| ensures Views(Nodes(side))[i].id != Views(Nodes(side))[j].id {
        if Nodes(side)[i].order.id == Nodes(side)[j].order.id {
          NodesAreDistinct(side, i, j);
        }
      }
    }

    /** The size is the number of orders resting on the two sides. */
    lemma SizeIs()
      requires Consistent()
      ensures Size() == |Contents().bids| + |Contents().asks|
    {
      hide IndexAgrees, Views, Flatten, Distinct;
      SideIsDistinct(Buy);
      SideIsDistinct(Sell);
      IdsCount(Contents().bids);
      IdsCount(Contents().asks);
      IdsAreKeys();
      forall id | id in IdsOf(Contents().bids) ensures id !in IdsOf(Contents().asks) {
        IdsOnSide(Buy, id);
        IdsOnSide(Sell, id);
      }
    }

    lemma RestingFirst(orders: seq<ListNode>, i: nat)
      requires i < |orders|
      ensures Resting(Views(orders[i..]), Any) == orders[i].order.remaining + Resting(Views(orders[i + 1..]), Any)
    {
      assert orders[i..][1..] == orders[i + 1..];
    }

    /** Lines 146-149: the quantities of one list, added up in 32 bits. */
    method LevelQuantity(orders: seq<ListNode>) returns (total: Quantity)
      ensures total == Resting(Views(orders), Any) % MODULUS
    {
      hide Wrap, Resting, Views;
      total := 0;
      ghost var sum: nat := 0;
      assert orders[0..] == orders;
      WrapIs(0);
      for i := 0 to |orders|
        invariant sum + Resting(Views(orders[i..]), Any) == Resting(Views(orders), Any)
        invariant total == Wrap(sum)
      {
        RestingFirst(orders, i);
        WrapsOnce(sum, orders[i].order.remaining);
        total := Wrap(total + orders[i].order.remaining);
        sum := sum + orders[i].order.remaining;
      }
      RestingNone(orders[|orders|..]);
      WrapIs(sum);
    }

    lemma RestingNone(orders: seq<ListNode>)
      requires orders == []
      ensures Resting(Views(orders), Any) == 0
    {
    }

    /** What one round of the loop of `SideInfos` keeps: `infos` lists the levels no longer in
        `rest`, in order and ahead of it. */
    ghost predicate Listing(side: Side, levels: PriceLevels, rest: PriceLevels, infos: seq<LevelInfo>)
      reads set p, n | p in levels && n in levels[p] :: n.order
    {
      && rest.Keys <= levels.Keys && (forall p :: p in rest ==> rest[p] == levels[p])
      && (forall p :: p in levels <==> p in rest || Listed(infos, p))
      && Ordered(side, infos)
      && (forall i, p :: 0 <= i < |infos| && p in rest ==> Better(side, infos[i].price, p))
      && (forall i :: 0 <= i < |infos| ==>
            infos[i].price in levels && infos[i].quantity == Resting(Views(levels[infos[i].price]), Any) % MODULUS)
    }

    lemma ListingOneMore(side: Side, levels: PriceLevels, rest: PriceLevels, infos: seq<LevelInfo>, x: LevelInfo)
      requires Listing(side, levels, rest, infos)
      requires IsBest(side, rest.Keys, x.price) && x.quantity == Resting(Views(levels[x.price]), Any) % MODULUS
      ensures Listing(side, levels, rest - {x.price}, infos + [x])
    {
      hide Resting, Views, Listed;
      forall p ensures Listed(infos + [x], p) <==> Listed(infos, p) || p == x.price {
        ListedMore(infos, x, p);
      }
    }

    /** Lines 153-157 and 158-162: one side, level by level from the best. */
    method SideInfos(side: Side) returns (infos: seq<LevelInfo>)
      requires Valid()
      ensures IsSnapshot(side, Contents().On(side), infos)
    {
      hide Views, Flatten, IndexAgrees, Listing, Resting;
      var levels := LevelsOn(side);
      infos := [];
      var rest := levels;
      ListingStarts(side, levels);
      while rest != map[]
        invariant Listing(side, levels, rest, infos) && Sublevels(rest, levels)
        decreases |rest|
      {
        var price := Best(side, rest.Keys);
        if rest[price] != [] {
          var quantity := LevelQuantity(rest[price]);
          ListingOneMore(side, levels, rest, infos, LevelInfo(price, quantity));
          infos := infos + [LevelInfo(price, quantity)];
        }
        rest := rest - {price};
      }
      ListingIsSnapshot(side, infos);
    }

    ghost predicate Sublevels(rest: PriceLevels, levels: PriceLevels) {
      forall p :: p in rest ==> p in levels && rest[p] == levels[p]
    }

    lemma ListingStarts(side: Side, levels: PriceLevels)
      ensures Listing(side, levels, levels, [])
    {
    }

    lemma ListingIsSnapshot(side: Side, infos: seq<LevelInfo>)
      requires Valid() && Listing(side, LevelsOn(side), map[], infos)
      ensures IsSnapshot(side, Contents().On(side), infos)
    {
      hide Views, Flatten;
      forall p ensures Listed(infos, p) <==> Occupied(Contents().On(side), p) {
        OccupiedLevels(side, LevelsOn(side), p);
      }
      forall i | 0 <= i < |infos|
        ensures infos[i].quantity == Resting(Contents().On(side), Only(infos[i].price)) % MODULUS
      {
        RestingAtLevel(side, LevelsOn(side), infos[i].price);
      }
    }

    method GetOrderInfos() returns (bidInfos: seq<LevelInfo>, askInfos: seq<LevelInfo>)
      requires Valid()
      ensures IsSnapshot(Buy, Contents().bids, bidInfos)
      ensures IsSnapshot(Sell, Contents().asks, askInfos)
    {
      hide IsSnapshot, Views, Flatten, IndexAgrees;
      bidInfos := SideInfos(Buy);
      assert Views(Nodes(Buy)) == old(Views(Nodes(Buy)));
      askInfos := SideInfos(Sell);
      assert Views(Nodes(Buy)) == old(Views(Nodes(Buy)));
    }
  }
}
