/**
 The recursive scheduling pass is a sweep: visiting the channels below the root in
 post-order and letting each hand its jobs to its parent, then draining the root.
 */
module Traversal {
  import opened JobQueue
  import opened ChannelTree
  import opened ChannelDrain

  // ----------------------------------------------------------------- descendants of a channel

  /** `d` is `i` or lies below it. */
  predicate Under(parents: seq<Cid>, i: Cid, d: Cid)
    requires Shape(parents) && d < |parents|
    decreases d
  {
    d == i || (d > 0 && Under(parents, i, parents[d]))
  }

  /** The child of `i` on the way down to `d`. */
  function Branch(parents: seq<Cid>, i: Cid, d: Cid): (k: Cid)
    requires Shape(parents) && d < |parents| && Under(parents, i, d) && d != i
    ensures 0 < k <= d && parents[k] == i && Under(parents, k, d)
    decreases d
  {
    if parents[d] == i then d else Branch(parents, i, parents[d])
  }

  lemma {:induction false} UnderBound(parents: seq<Cid>, i: Cid, d: Cid)
    requires Shape(parents) && d < |parents| && Under(parents, i, d)
    ensures i <= d
    decreases d
  {
    if d != i { UnderBound(parents, i, parents[d]); }
  }

  lemma {:induction false} UnderRoot(parents: seq<Cid>, d: Cid)
    requires Shape(parents) && d < |parents|
    ensures Under(parents, 0, d)
    decreases d
  {
    if d != 0 { UnderRoot(parents, parents[d]); }
  }

  /** Below a child of `i` is below `i`, along that branch and no other. */
  lemma {:induction false} UnderChild(parents: seq<Cid>, i: Cid, k: Cid, d: Cid)
    requires Shape(parents) && d < |parents| && k < |parents| && 0 < k && parents[k] == i && Under(parents, k, d)
    ensures Under(parents, i, d) && d != i && Branch(parents, i, d) == k
    decreases d
  {
    UnderBound(parents, k, d);
    if d != k {
      UnderChild(parents, i, k, parents[d]);
      UnderBound(parents, k, parents[d]);
    }
  }

  // ------------------------------------------------------------------------ post-order

  /** A list of channels below the root. */
  predicate Visits(n: nat, ks: seq<Cid>) {
    forall a :: 0 <= a < |ks| ==> 0 < ks[a] < n
  }

  function Order(parents: seq<Cid>, i: Cid): (ks: seq<Cid>)
    requires Shape(parents) && i < |parents|
    ensures Visits(|parents|, ks)
    decreases |parents| - i, 1, 0
  {
    OrderChildren(parents, i, i + 1)
  }

  function OrderChildren(parents: seq<Cid>, i: Cid, j: Cid): (ks: seq<Cid>)
    requires Shape(parents) && i < j <= |parents|
    ensures Visits(|parents|, ks)
    decreases |parents| - i, 0, |parents| - j
  {
    if j == |parents| then []
    else if parents[j] == i then Order(parents, j) + [j] + OrderChildren(parents, i, j + 1)
    else OrderChildren(parents, i, j + 1)
  }

  /** The part of the subtree of `i` that hangs off children numbered `j` or more. */
  ghost predicate Below(parents: seq<Cid>, i: Cid, j: Cid, d: Cid)
    requires Shape(parents)
  {
    d < |parents| && d != i && Under(parents, i, d) && Branch(parents, i, d) >= j
  }

  lemma {:induction false} OrderMembers(parents: seq<Cid>, i: Cid, d: Cid)
    requires Shape(parents) && i < |parents|
    ensures d in Order(parents, i) <==> d < |parents| && d != i && Under(parents, i, d)
    decreases |parents| - i, 1, 0
  {
    OrderChildrenMembers(parents, i, i + 1, d);
    if d < |parents| && d != i && Under(parents, i, d) {
      assert parents[Branch(parents, i, d)] == i;
    }
  }

  lemma {:induction false} OrderChildrenMembers(parents: seq<Cid>, i: Cid, j: Cid, d: Cid)
    requires Shape(parents) && i < j <= |parents|
    ensures d in OrderChildren(parents, i, j) <==> Below(parents, i, j, d)
    decreases |parents| - i, 0, |parents| - j
  {
    if j < |parents| {
      OrderChildrenMembers(parents, i, j + 1, d);
      if parents[j] == i {
        OrderMembers(parents, j, d);
        if d < |parents| && Under(parents, j, d) { UnderChild(parents, i, j, d); }
      }
    }
  }

  /** Every channel is visited at most once and never before one of its children. */
  ghost predicate BottomUp(parents: seq<Cid>, ks: seq<Cid>) {
    && Shape(parents)
    && Visits(|parents|, ks)
    && Distinct(ks)
    && (forall a, b :: 0 <= a < b < |ks| ==> parents[ks[b]] != ks[a])
  }

  lemma BottomUpConcat(parents: seq<Cid>, xs: seq<Cid>, ys: seq<Cid>)
    requires BottomUp(parents, xs) && BottomUp(parents, ys)
    requires forall x, y :: x in xs && y in ys && y < |parents| ==> x != y && parents[y] != x
    ensures BottomUp(parents, xs + ys)
  {
    var zs := xs + ys;
    assert Visits(|parents|, zs);
    forall a, b | 0 <= a < b < |zs| ensures zs[a] != zs[b] && parents[zs[b]] != zs[a] {
      if a < |xs| <= b { assert zs[a] in xs && zs[b] in ys; }
    }
  }

  lemma {:induction false} OrderBottomUp(parents: seq<Cid>, i: Cid)
    requires Shape(parents) && i < |parents|
    ensures BottomUp(parents, Order(parents, i))
    decreases |parents| - i, 1, 0
  {
    OrderChildrenBottomUp(parents, i, i + 1);
  }

  lemma {:induction false} OrderChildrenBottomUp(parents: seq<Cid>, i: Cid, j: Cid)
    requires Shape(parents) && i < j <= |parents|
    ensures BottomUp(parents, OrderChildren(parents, i, j))
    decreases |parents| - i, 0, |parents| - j
  {
    if j < |parents| {
      OrderChildrenBottomUp(parents, i, j + 1);
      if parents[j] == i {
        OrderBottomUp(parents, j);
        var inner, rest := Order(parents, j), OrderChildren(parents, i, j + 1);
        forall x | x in inner ensures x != j && parents[j] != x {
          OrderMembers(parents, j, x);
          UnderBound(parents, j, x);
        }
        BottomUpConcat(parents, inner, [j]);
        forall x, y | x in inner + [j] && y in rest && y < |parents| ensures x != y && parents[y] != x {
          Separate(parents, i, j, x, y);
        }
        BottomUpConcat(parents, inner + [j], rest);
      }
    }
  }

  lemma Separate(parents: seq<Cid>, i: Cid, j: Cid, x: Cid, y: Cid)
    requires Shape(parents) && i < j < |parents| && parents[j] == i
    requires x in Order(parents, j) + [j] && y in OrderChildren(parents, i, j + 1) && y < |parents|
    ensures x != y && parents[y] != x
  {
    OrderMembers(parents, j, x);
    OrderChildrenMembers(parents, i, j + 1, y);
    if Under(parents, j, y) { UnderChild(parents, i, j, y); }
  }

  // ------------------------------------------------------------------------- the sweep

  /** A channel below the root hands what it yields to its parent's queue. */
  function PullUp(t: Tree, k: Cid, now: Time): (t': Tree)
    requires At(t, k) && k > 0
    ensures Sized(t') && |t'.chans| == |t.chans| && t'.parents == t.parents
  {
    var (t1, ys) := DrainAt(t, k, now);
    EnqueueAll(t1, t.parents[k], ys)
  }

  function Sweep(t: Tree, ks: seq<Cid>, now: Time): (t': Tree)
    requires Sized(t) && Visits(|t.chans|, ks)
    ensures Sized(t') && |t'.chans| == |t.chans| && t'.parents == t.parents
    decreases |ks|
  {
    if ks == [] then t else Sweep(PullUp(t, ks[0], now), ks[1..], now)
  }

  lemma {:induction false} SweepConcat(t: Tree, xs: seq<Cid>, ys: seq<Cid>, now: Time)
    requires Sized(t) && Visits(|t.chans|, xs) && Visits(|t.chans|, ys)
    ensures Visits(|t.chans|, xs + ys)
    ensures Sweep(t, xs + ys, now) == Sweep(Sweep(t, xs, now), ys, now)
    decreases |xs|
  {
    hide PullUp;
    if xs == [] {
      assert xs + ys == ys;
    } else {
      var t1 := PullUp(t, xs[0], now);
      assert (xs + ys)[1..] == xs[1..] + ys;
      SweepConcat(t1, xs[1..], ys, now);
    }
  }

  lemma {:induction false} PassIsSweep(t: Tree, i: Cid, now: Time)
    requires At(t, i)
    ensures Pass(t, i, now) == DrainAt(Sweep(t, Order(t.parents, i), now), i, now)
    decreases |t.chans| - i, 1, 0
  {
    PassChildrenIsSweep(t, i, i + 1, now);
  }

  lemma {:induction false} PassChildrenIsSweep(t: Tree, i: Cid, j: Cid, now: Time)
    requires At(t, i) && i < j <= |t.chans|
    ensures PassChildren(t, i, j, now) == Sweep(t, OrderChildren(t.parents, i, j), now)
    decreases |t.chans| - i, 0, |t.chans| - j
  {
    hide PullUp, DrainAt, EnqueueAll;
    if j < |t.chans| {
      if t.parents[j] == i {
        PassIsSweep(t, j, now);
        var inner, rest := Order(t.parents, j), OrderChildren(t.parents, i, j + 1);
        var t0 := Sweep(t, inner, now);
        var (t1, ys) := DrainAt(t0, j, now);
        var t2 := EnqueueAll(t1, i, ys);
        assert t2 == PullUp(t0, j, now) by { PullUpUnfold(t0, j, now); }
        SweepOne(t0, j, now);
        SweepConcat(t, inner, [j], now);
        SweepConcat(t, inner + [j], rest, now);
        PassChildrenIsSweep(t2, i, j + 1, now);
      } else {
        PassChildrenIsSweep(t, i, j + 1, now);
      }
    }
  }

  lemma PullUpUnfold(t: Tree, k: Cid, now: Time)
    requires At(t, k) && k > 0
    ensures PullUp(t, k, now) == EnqueueAll(DrainAt(t, k, now).0, t.parents[k], DrainAt(t, k, now).1)
  {
  }

  lemma SweepOne(t: Tree, k: Cid, now: Time)
    requires At(t, k) && k > 0
    ensures Sweep(t, [k], now) == PullUp(t, k, now)
  {
    assert Sweep(PullUp(t, k, now), [], now) == PullUp(t, k, now);
  }

  /** The order in which a pass of the whole tree visits the channels below the root. */
  lemma RootOrder(parents: seq<Cid>)
    requires Shape(parents)
    ensures BottomUp(parents, Order(parents, 0))
    ensures forall k :: 0 < k < |parents| ==> k in Order(parents, 0)
  {
    OrderBottomUp(parents, 0);
    forall k | 0 < k < |parents| ensures k in Order(parents, 0) {
      UnderRoot(parents, k);
      OrderMembers(parents, 0, k);
    }
  }
}
