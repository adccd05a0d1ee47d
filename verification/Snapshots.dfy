/** Depth snapshots: what GetOrderInfos must return for a side. */
module Snapshots {
  import opened Types
  import opened Matching
  import opened Greedy
  import opened Walking
  import opened Reachable
  import opened TwoRuns

  ghost predicate Ordered(side: Side, infos: seq<LevelInfo>) {
    forall i, j :: 0 <= i < j < |infos| ==> Better(side, infos[i].price, infos[j].price)
  }

  ghost predicate Listed(infos: seq<LevelInfo>, p: Price) { exists i :: 0 <= i < |infos| && infos[i].price == p }

  ghost predicate Occupied(s: seq<OrderState>, p: Price) { exists i :: 0 <= i < |s| && s[i].price == p }

  /** Best price first, exactly the occupied prices, and at each the remaining quantity summed
      in 32 bits. */
  ghost predicate IsSnapshot(side: Side, s: seq<OrderState>, infos: seq<LevelInfo>) {
    && Ordered(side, infos)
    && (forall p :: Listed(infos, p) <==> Occupied(s, p))
    && (forall i :: 0 <= i < |infos| ==> infos[i].quantity == Resting(s, Only(infos[i].price)) % MODULUS)
  }

  lemma {:induction false} SameLevels(side: Side, a: seq<LevelInfo>, b: seq<LevelInfo>)
    requires Ordered(side, a) && Ordered(side, b) && forall p :: Listed(a, p) <==> Listed(b, p)
    ensures |a| == |b| && forall i :: 0 <= i < |a| ==> a[i].price == b[i].price
    decreases |a|
  {
    if a == [] {
      if b != [] {
        assert Listed(b, b[0].price);
      }
    } else {
      assert Listed(a, a[0].price);
      var j :| 0 <= j < |b| && b[j].price == a[0].price;
      assert Listed(b, b[0].price);
      var i :| 0 <= i < |a| && a[i].price == b[0].price;
      assert i == 0 && j == 0;
      forall p ensures Listed(a[1..], p) <==> Listed(b[1..], p) {
        ListedRest(side, a, p);
        ListedRest(side, b, p);
      }
      SameLevels(side, a[1..], b[1..]);
    }
  }

  lemma ListedRest(side: Side, a: seq<LevelInfo>, p: Price)
    requires a != [] && Ordered(side, a)
    ensures Listed(a[1..], p) <==> Listed(a, p) && p != a[0].price
  {
    if i :| 0 <= i < |a| && a[i].price == p && i != 0 {
      assert a[1..][i - 1].price == p;
    }
    if i :| 0 <= i < |a[1..]| && a[1..][i].price == p {
      assert a[i + 1].price == p;
    }
  }

  lemma ListedMore(a: seq<LevelInfo>, x: LevelInfo, p: Price)
    ensures Listed(a + [x], p) <==> Listed(a, p) || p == x.price
  {
    if Listed(a, p) {
      var i :| 0 <= i < |a| && a[i].price == p;
      assert (a + [x])[i].price == p;
    }
    assert (a + [x])[|a|] == x;
  }

  lemma {:induction false} OccupiedIsPositive(side: Side, s: seq<OrderState>, p: Price)
    requires SideOk(side, s)
    ensures Occupied(s, p) <==> 0 < Resting(s, Only(p))
  {
    if s != [] {
      OccupiedIsPositive(side, s[1..], p);
      if s[0].price == p {
        assert Occupied(s, p);
      }
      if i :| 0 <= i < |s| && s[i].price == p && i != 0 {
        assert s[1..][i - 1].price == p;
      }
      if i :| 0 <= i < |s[1..]| && s[1..][i].price == p {
        assert s[i + 1].price == p;
      }
    }
  }

  /** A snapshot is determined by the quantity resting at each price. */
  lemma SnapshotIsUnique(side: Side, s: seq<OrderState>, t: seq<OrderState>, a: seq<LevelInfo>, b: seq<LevelInfo>)
    requires SideOk(side, s) && SideOk(side, t)
    requires forall p: Price :: Resting(s, Only(p)) == Resting(t, Only(p))
    requires IsSnapshot(side, s, a) && IsSnapshot(side, t, b)
    ensures a == b
  {
    forall p ensures Listed(a, p) <==> Listed(b, p) {
      OccupiedIsPositive(side, s, p);
      OccupiedIsPositive(side, t, p);
    }
    SameLevels(side, a, b);
  }

  /** An order and the same quantity in two give the same depth snapshots. */
  lemma SplittingKeepsSnapshots(b: Book, o: OrderState, id1: OrderId, id2: OrderId, q1: Quantity, q2: Quantity,
                                side: Side, whole: seq<LevelInfo>, parts: seq<LevelInfo>)
    requires Inv(b) && Submit(o).Fresh() && o.kind.GoodTillCancel? && o.id !in b.Ids()
    requires id1 !in b.Ids() && id2 !in b.Ids() && id1 != id2
    requires 0 < q1 && 0 < q2 && q1 + q2 == o.remaining
    requires IsSnapshot(side, Add(b, o).book.On(side), whole)
    requires IsSnapshot(side, Add(Add(b, Part(o, id1, q1)).book, Part(o, id2, q2)).book.On(side), parts)
    ensures whole == parts
  {
    hide Add, Resting, IsSnapshot;
    var one := Add(b, Part(o, id1, q1)).book;
    var two := Add(one, Part(o, id2, q2)).book;
    SplittingIsInvisible(b, o, id1, id2, q1, q2);
    AddKeepsInv(b, o);
    AddKeepsInv(b, Part(o, id1, q1));
    AddKeepsInv(one, Part(o, id2, q2));
    SnapshotIsUnique(side, Add(b, o).book.On(side), two.On(side), whole, parts);
  }

  // ---------- The levels of one side ----------

  lemma {:induction false} RestingConcat(a: seq<OrderState>, b: seq<OrderState>, at: Prices)
    ensures Resting(a + b, at) == Resting(a, at) + Resting(b, at)
  {
    if a == [] {
      assert a + b == b;
    } else {
      assert (a + b)[1..] == a[1..] + b;
      RestingConcat(a[1..], b, at);
    }
  }

  lemma {:induction false} RestingAtOnePrice(s: seq<OrderState>, p: Price, q: Price)
    requires forall i :: 0 <= i < |s| ==> s[i].price == p
    ensures Resting(s, Only(q)) == if q == p then Resting(s, Any) else 0
  {
    if s != [] {
      RestingAtOnePrice(s[1..], p, q);
    }
  }

  /** Adding modulo 2^32 at every step gives the sum modulo 2^32. */
  lemma WrapsOnce(sum: nat, x: nat)
    ensures Wrap(Wrap(sum) + x) == Wrap(sum + x)
  {
  }

  lemma WrapIs(n: nat)
    ensures Wrap(n) == n % MODULUS && (n < MODULUS ==> Wrap(n) == n)
  {
  }
}
