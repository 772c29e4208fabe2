/**
 What one channel of the tree yields in a scheduling pass, counting the jobs its children have
 just handed up.
 */
module PassYield {
  import opened JobQueue
  import opened ChannelTree
  import opened ChannelDrain
  import opened Traversal
  import opened Frontier

  /** What the children of `i` numbered `j` or more hand up to it in a pass. */
  ghost function FromChildren(t: Tree, i: Cid, j: Cid, now: Time): set<Ref>
    requires At(t, i) && i < j <= |t.chans|
    decreases |t.chans| - j
  {
    if j == |t.chans| then {}
    else if t.parents[j] == i then
      var (t1, ys) := Pass(t, j, now);
      Members(ys) + FromChildren(EnqueueAll(t1, i, ys), i, j + 1, now)
    else FromChildren(t, i, j + 1, now)
  }

  /** A pass of a channel leaves those created before it alone. */
  lemma {:induction false} PassElsewhere(t: Tree, i: Cid, now: Time, k: Cid)
    requires At(t, i) && k < i
    ensures Pass(t, i, now).0.chans[k] == t.chans[k]
    decreases |t.chans| - i, 1, 0
  {
    PassChildrenElsewhere(t, i, i + 1, now, k);
    hide PassChildren;
    DrainElsewhere(PassChildren(t, i, i + 1, now), i, now, k);
  }

  lemma DrainElsewhere(t: Tree, i: Cid, now: Time, k: Cid)
    requires At(t, i) && k < i
    ensures DrainAt(t, i, now).0.chans[k] == t.chans[k]
  {
  }

  lemma {:induction false} PassChildrenElsewhere(t: Tree, i: Cid, j: Cid, now: Time, k: Cid)
    requires At(t, i) && k < i < j <= |t.chans|
    ensures PassChildren(t, i, j, now).chans[k] == t.chans[k]
    decreases |t.chans| - i, 0, |t.chans| - j
  {
    hide Pass, EnqueueAll;
    if j < |t.chans| {
      if t.parents[j] == i {
        var (t1, ys) := Pass(t, j, now);
        PassElsewhere(t, j, now, k);
        EnqueueElsewhere(t1, i, ys, k);
        PassChildrenElsewhere(EnqueueAll(t1, i, ys), i, j + 1, now, k);
      } else {
        PassChildrenElsewhere(t, i, j + 1, now, k);
      }
    }
  }

  lemma {:induction false} EnqueueElsewhere(t: Tree, i: Cid, ys: seq<Ref>, k: Cid)
    requires At(t, i) && k < |t.chans| && k != i
    ensures EnqueueAll(t, i, ys).chans[k] == t.chans[k]
    decreases |ys|
  {
    if ys != [] { EnqueueElsewhere(Put(t, i, Enqueue(t.chans[i], t.keys, ys[0])), i, ys[1..], k); }
  }

  lemma OneQueued(t: Tree, k: Cid, r: Ref)
    requires Inv(t) && 0 < k < |t.chans| && HandedUp(t, k, r)
    ensures var p := t.parents[k]; var c, c' := t.chans[p], Enqueue(t.chans[p], t.keys, r);
            c' == c.(due := c'.due, eta := c'.eta) && Queued(c') == Queued(c) + {r}
  {
    var p := t.parents[k];
    assert ChanOk(t, p);
    hide Inv;
    EnqueueEffect(t.chans[p], t.keys, r);
    EnqueueFrame(t.chans[p], t.keys, r);
  }

  /** Enqueueing adds exactly the jobs handed up. */
  lemma {:induction false} EnqueueAllQueued(t: Tree, k: Cid, ys: seq<Ref>)
    requires Inv(t) && 0 < k < |t.chans| && forall r :: r in ys ==> HandedUp(t, k, r)
    ensures var p := t.parents[k]; var c, c' := t.chans[p], EnqueueAll(t, p, ys).chans[p];
            c' == c.(due := c'.due, eta := c'.eta) && Queued(c') == Queued(c) + Members(ys)
    decreases |ys|
  {
    InvSized(t);
    hide Inv, Queued, Enqueue;
    if ys != [] {
      var p := t.parents[k];
      assert ys[0] in ys && HandedUp(t, k, ys[0]);
      EnqueueOneKeeps(t, k, ys[0]);
      OneQueued(t, k, ys[0]);
      var t' := Put(t, p, Enqueue(t.chans[p], t.keys, ys[0]));
      forall r | r in ys[1..] ensures HandedUp(t', k, r) { assert HandedUp(t, k, r); }
      EnqueueAllQueued(t', k, ys[1..]);
      assert ys == [ys[0]] + ys[1..];
      assert Members(ys) == {ys[0]} + Members(ys[1..]);
    }
  }

  lemma PassAtKeeps(t: Tree, k: Cid, now: Time)
    requires Inv(t) && k < |t.chans|
    ensures var (t', ys) := Pass(t, k, now); Inv(t') && (k > 0 ==> forall r :: r in ys ==> HandedUp(t', k, r))
  {
    hide Inv, Sweep, DrainAt, Pass;
    InvSized(t);
    var ks := Order(t.parents, k);
    SweepKeeps(t, ks, now);
    DrainAtKeeps(Sweep(t, ks, now), k, now);
    PassIsSweep(t, k, now);
  }

  /** When its turn comes, a channel has in its queue what it had and what its children hand up. */
  lemma {:induction false} QueueFromChildren(t: Tree, i: Cid, j: Cid, now: Time)
    requires Inv(t) && i < j <= |t.chans|
    ensures var c, c' := t.chans[i], PassChildren(t, i, j, now).chans[i];
            && c' == c.(due := c'.due, eta := c'.eta) && Queued(c') == Queued(c) + FromChildren(t, i, j, now)
            && Inv(PassChildren(t, i, j, now))
    decreases |t.chans| - j
  {
    InvSized(t);
    hide Inv, Pass, EnqueueAll, Queued;
    if j < |t.chans| {
      if t.parents[j] == i {
        var (t1, ys) := Pass(t, j, now);
        PassElsewhere(t, j, now, i);
        PassAtKeeps(t, j, now);
        EnqueueAllQueued(t1, j, ys);
        EnqueueAllKeeps(t1, j, ys);
        QueueFromChildren(EnqueueAll(t1, i, ys), i, j + 1, now);
      } else {
        QueueFromChildren(t, i, j + 1, now);
      }
    }
  }

  /** `ys` are the `k` first of `ok`, in nondecreasing order of rank. */
  ghost predicate FirstByRank(ys: seq<Ref>, ok: set<Ref>, keys: Keys) {
    && Members(ys) <= ok
    && (forall i, j :: 0 <= i < j < |ys| ==> !Precedes(keys, ys[j], ys[i]))
    && (forall i, r :: 0 <= i < |ys| && r in ok && r !in Members(ys) ==> !Precedes(keys, r, ys[i]))
  }

  /**
   A pass of a non-sequential, unthrottled channel anywhere in the tree yields, in order, the k
   smallest jobs that have no eta or whose eta has come, its children's included, where k is
   the smaller of the free capacity and the number of such jobs.
   */
  lemma PassYieldsSmallest(t: Tree, i: Cid, now: Time)
    requires Inv(t) && i < |t.chans| && !t.chans[i].sequential && t.chans[i].throttle == 0
    ensures var s := PassChildren(t, i, i + 1, now);
            var ys, ok := Pass(t, i, now).1, Eligible(s.chans[i], s.keys, now);
            && Queued(s.chans[i]) == Queued(t.chans[i]) + FromChildren(t, i, i + 1, now)
            && s.chans[i].running == t.chans[i].running && s.chans[i].capacity == t.chans[i].capacity
            && |ys| == HowMany(t.chans[i], ok) && FirstByRank(ys, ok, s.keys)
  {
    InvSized(t);
    hide Inv, PassChildren, Eligible, Queued, HowMany, FirstByRank;
    var s := PassChildren(t, i, i + 1, now);
    QueueFromChildren(t, i, i + 1, now);
    DrainAtFirst(s, i, now);
    SameRoom(t.chans[i], s.chans[i], Eligible(s.chans[i], s.keys, now));
  }

  lemma SameRoom(c: Chan, c': Chan, ok: set<Ref>)
    requires c'.running == c.running && c'.capacity == c.capacity
    ensures HowMany(c', ok) == HowMany(c, ok)
  {
  }

  lemma DrainAtFirst(s: Tree, i: Cid, now: Time)
    requires Inv(s) && i < |s.chans| && !s.chans[i].sequential && s.chans[i].throttle == 0
    ensures Sized(s)
    ensures var ys, ok := DrainAt(s, i, now).1, Eligible(s.chans[i], s.keys, now);
            |ys| == HowMany(s.chans[i], ok) && FirstByRank(ys, ok, s.keys)
  {
    assert Local(s, i) && ChanOk(s, i);
    hide Inv, Eligible, Queued, Drain, HowMany;
    DrainYieldsSmallest(s.chans[i], s.keys, now);
  }
}
