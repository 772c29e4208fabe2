/**
 Sleeping until the wakeup time is safe and never busy.

 After a complete pass every channel is settled; from that, the wakeup time is 0 or in the
 future, and until then no further pass yields a job.
 */
module Sleep {
  import opened JobQueue
  import opened ChannelTree
  import opened ChannelDrain
  import opened Traversal
  import opened Frontier
  import opened SchedulerRuns

  // -------------------------------------------------------- a pass settles every channel

  ghost predicate AllSettled(t: Tree, done: set<Cid>, now: Time) {
    forall d :: d in done ==> d < |t.chans| && Settled(t.chans[d], t.keys, now)
  }

  /** Being stuck depends only on the live contents and their keys. */
  lemma StuckSame(c: Chan, keys: Keys, c': Chan, keys': Keys, x: Time)
    requires c.due.Live() == c'.due.Live() && c.eta.Live() == c'.eta.Live() && c'.sequential == c.sequential
    requires forall r :: r in c.due.Live() + c.eta.Live() ==> KeyOf(keys', r) == KeyOf(keys, r)
    ensures Stuck(c, keys, x) == Stuck(c', keys', x)
  {
    assert Ready(c, keys, x) == Ready(c', keys', x);
    if c.eta.Live() != {} { MinSameKeys(c.eta.Live(), keys, keys'); }
    if c.due.Live() != {} { MinSameKeys(c.due.Live(), keys, keys'); }
  }

  /** Draining one channel leaves the keys in the heaps of all others alone. */
  lemma DrainAtOtherKeys(t: Tree, k: Cid, now: Time, d: Cid)
    requires Inv(t) && k < |t.chans| && d < |t.chans| && d != k
    ensures DrainAt(t, k, now).0.chans[d] == t.chans[d]
    ensures forall r :: r in t.chans[d].eta.known + t.chans[d].due.known ==>
              KeyOf(DrainAt(t, k, now).0.keys, r) == KeyOf(t.keys, r)
  {
    hide DrainAt;
    assert ChanOk(t, k) && ChanOk(t, d);
    DrainAtFacts(t, k, now);
    var t' := DrainAt(t, k, now).0;
    OtherQueueOk(t, k, d, t'.keys, t.chans[k].eta.Live() - t'.chans[k].eta.Live());
  }

  lemma DrainAtSettlesOther(t: Tree, k: Cid, now: Time, d: Cid, at: Time)
    requires Inv(t) && k < |t.chans| && d < |t.chans| && d != k && Settled(t.chans[d], t.keys, at)
    ensures Settled(DrainAt(t, k, now).0.chans[d], DrainAt(t, k, now).0.keys, at)
  {
    hide DrainAt, Stuck, HasCapacity;
    DrainAtOtherKeys(t, k, now, d);
    StuckSame(t.chans[d], t.keys, t.chans[d], DrainAt(t, k, now).0.keys, at);
  }

  lemma DrainAtSettles(t: Tree, k: Cid, now: Time, done: set<Cid>)
    requires Good(t) && k < |t.chans| && k !in done && AllSettled(t, done, now) && now > 0.0
    ensures Sized(t) && AllSettled(DrainAt(t, k, now).0, done + {k}, now)
  {
    InvSized(t);
    hide Settled, Inv, EtaOk, DrainAt;
    forall d | d in done + {k} ensures d < |t.chans| && Settled(DrainAt(t, k, now).0.chans[d], DrainAt(t, k, now).0.keys, now) {
      if d == k { DrainAtSelf(t, k, now); } else { DrainAtSettlesOther(t, k, now, d, now); }
    }
  }

  lemma DrainAtSelf(t: Tree, k: Cid, now: Time)
    requires Good(t) && k < |t.chans| && now > 0.0
    ensures Sized(t) && Settled(DrainAt(t, k, now).0.chans[k], DrainAt(t, k, now).0.keys, now)
  {
    hide Drain;
    assert ChanOk(t, k) && PauseOk(t.chans[k]);
    DrainSettles(t.chans[k], t.keys, now);
  }

  lemma PullUpSettles(t: Tree, k: Cid, now: Time, done: set<Cid>)
    requires Good(t) && 0 < k < |t.chans| && k !in done && Sized(t) && t.parents[k] !in done
    requires AllSettled(t, done, now) && now > 0.0
    ensures AllSettled(PullUp(t, k, now), done + {k}, now)
  {
    hide Good, Settled, DrainAt, EnqueueAll;
    DrainAtSettles(t, k, now, done);
    EnqueueAllFrame(DrainAt(t, k, now).0, t.parents[k], DrainAt(t, k, now).1);
  }

  lemma {:induction false} SweepSettles(t: Tree, ks: seq<Cid>, now: Time, done: set<Cid>)
    requires Good(t) && Sized(t) && BottomUp(t.parents, ks) && now > 0.0 && AllSettled(t, done, now)
    requires forall a :: 0 <= a < |ks| ==> ks[a] !in done && t.parents[ks[a]] !in done
    ensures AllSettled(Sweep(t, ks, now), done + Members(ks), now)
    decreases |ks|
  {
    hide Good, AllSettled, PullUp;
    if ks == [] {
      assert done + Members(ks) == done;
    } else {
      var k := ks[0];
      PullUpGood(t, k, now);
      PullUpSettles(t, k, now, done);
      SweepSettles(PullUp(t, k, now), ks[1..], now, done + {k});
      assert done + {k} + Members(ks[1..]) == done + Members(ks);
    }
  }

  /** After a complete pass at `now` every channel is full, paused beyond `now`, or stuck. */
  lemma PassSettles(t: Tree, now: Time)
    requires Good(t) && now > 0.0
    ensures Sized(t) && forall k :: 0 <= k < |t.chans| ==> Settled(Pass(t, 0, now).0.chans[k], Pass(t, 0, now).0.keys, now)
  {
    InvSized(t);
    hide Inv, EtaOk, PauseInv, Settled, Sweep, DrainAt, Pass;
    var ks := Order(t.parents, 0);
    RootOrder(t.parents);
    assert AllSettled(t, {}, now);
    SweepSettles(t, ks, now, {});
    SweepGood(t, ks, now);
    DrainAtSettles(Sweep(t, ks, now), 0, now, {} + Members(ks));
    PassIsSweep(t, 0, now);
  }

  // ------------------------------------------------------------- what the wakeup time means

  /** Channel `i` yields nothing at `x`: it is full, paused, or stuck with nothing coming from below. */
  ghost predicate Quiet(t: Tree, i: Cid, x: Time)
    requires At(t, i)
    decreases |t.chans| - i
  {
    var c := t.chans[i];
    || !HasCapacity(c)
    || (c.throttle != 0 && c.pause != 0.0 && x < c.pause)
    || (c.pause == 0.0 && Stuck(c, t.keys, x) && forall k :: i < k < |t.chans| && t.parents[k] == i ==> Quiet(t, k, x))
  }

  predicate NotYet(x: Time, w: Time) { w == 0.0 || x < w }

  lemma SoonerNotYet(w: Time, y: Time, x: Time)
    requires w >= 0.0 && y > 0.0 && NotYet(x, Sooner(w, y))
    ensures NotYet(x, w) && x < y
  {
  }

  /** A settled, unpaused channel stays stuck until its earliest eta. */
  lemma StuckUntilEta(c: Chan, keys: Keys, now: Time, x: Time, w: Time)
    requires QueueOk(c, keys) && Stuck(c, keys, now) && now <= x && w >= 0.0
    requires NotYet(x, QueueWakeup(c, keys, w))
    ensures Stuck(c, keys, x) && NotYet(x, w)
  {
    EmptyQueue(c.eta, keys);
    TrimKeepsLive(c.eta, keys);
    if c.eta.Live() != {} {
      var h := Min(c.eta.Live(), keys);
      assert h in keys;
      SoonerNotYet(w, EtaOf(keys, h), x);
    }
    NoneReady(c, keys, x);
  }

  lemma QueueWakeupFuture(c: Chan, keys: Keys, now: Time, w: Time)
    requires QueueOk(c, keys) && Stuck(c, keys, now) && now > 0.0 && (w == 0.0 || w > now)
    ensures var v := QueueWakeup(c, keys, w); v == 0.0 || v > now
  {
    EmptyQueue(c.eta, keys);
    TrimKeepsLive(c.eta, keys);
    if c.eta.Live() != {} {
      var h := Min(c.eta.Live(), keys);
      assert h !in Ready(c, keys, now);
    }
  }

  ghost predicate SettledTree(t: Tree, now: Time) {
    Good(t) && now > 0.0 && forall k :: 0 <= k < |t.chans| ==> Settled(t.chans[k], t.keys, now)
  }

  lemma SettledAt(t: Tree, now: Time, i: Cid)
    requires SettledTree(t, now) && i < |t.chans|
    ensures Sized(t) && Settled(t.chans[i], t.keys, now) && PauseOk(t.chans[i]) && QueueOk(t.chans[i], t.keys)
  {
    InvSized(t);
    assert ChanOk(t, i);
  }

  /** Never busy: the wakeup time is 0 or lies in the future. */
  lemma {:induction false} WakeupFuture(t: Tree, i: Cid, w: Time, now: Time)
    requires SettledTree(t, now) && i < |t.chans| && (w == 0.0 || w > now) && Sized(t)
    ensures Wakeup(t, i, w) == 0.0 || Wakeup(t, i, w) > now
    decreases |t.chans| - i, 1, 0
  {
    hide SettledTree, QueueOk, Stuck, HasCapacity, QueueWakeup;
    SettledAt(t, now, i);
    PositiveNow(t, now);
    var c := t.chans[i];
    if HasCapacity(c) && c.pause == 0.0 {
      QueueWakeupFuture(c, t.keys, now, w);
      WakeupChildrenFuture(t, i, i + 1, QueueWakeup(c, t.keys, w), now);
    }
  }

  lemma {:induction false} WakeupChildrenFuture(t: Tree, i: Cid, j: Cid, w: Time, now: Time)
    requires SettledTree(t, now) && i < j <= |t.chans| && (w == 0.0 || w > now) && Sized(t)
    ensures WakeupChildren(t, i, j, w) == 0.0 || WakeupChildren(t, i, j, w) > now
    decreases |t.chans| - i, 0, |t.chans| - j
  {
    hide SettledTree;
    if j < |t.chans| {
      if t.parents[j] == i {
        WakeupFuture(t, j, w, now);
        WakeupChildrenFuture(t, i, j + 1, Wakeup(t, j, w), now);
      } else {
        WakeupChildrenFuture(t, i, j + 1, w, now);
      }
    }
  }

  /** Until the wakeup time, the channel it was computed for is quiet. */
  lemma {:induction false} WakeupQuiet(t: Tree, i: Cid, w: Time, now: Time, x: Time)
    requires SettledTree(t, now) && i < |t.chans| && (w == 0.0 || w > now) && Sized(t) && now <= x
    requires NotYet(x, Wakeup(t, i, w))
    ensures Quiet(t, i, x) && NotYet(x, w)
    decreases |t.chans| - i, 1, 0
  {
    hide SettledTree, QueueOk, Stuck, HasCapacity, QueueWakeup;
    SettledAt(t, now, i);
    var c := t.chans[i];
    if HasCapacity(c) {
      PositiveNow(t, now);
      if c.pause != 0.0 {
        SoonerNotYet(w, c.pause, x);
      } else {
        QueueWakeupFuture(c, t.keys, now, w);
        WakeupChildrenQuiet(t, i, i + 1, QueueWakeup(c, t.keys, w), now, x);
        StuckUntilEta(c, t.keys, now, x, w);
      }
    }
  }

  lemma PositiveNow(t: Tree, now: Time)
    requires SettledTree(t, now)
    ensures now > 0.0
  {
  }

  lemma {:induction false} WakeupChildrenQuiet(t: Tree, i: Cid, j: Cid, w: Time, now: Time, x: Time)
    requires SettledTree(t, now) && i < j <= |t.chans| && (w == 0.0 || w > now) && Sized(t) && now <= x
    requires NotYet(x, WakeupChildren(t, i, j, w))
    ensures NotYet(x, w)
    ensures forall k :: j <= k < |t.chans| && t.parents[k] == i ==> Quiet(t, k, x)
    decreases |t.chans| - i, 0, |t.chans| - j
  {
    hide SettledTree;
    if j < |t.chans| {
      if t.parents[j] == i {
        WakeupFuture(t, j, w, now);
        WakeupChildrenQuiet(t, i, j + 1, Wakeup(t, j, w), now, x);
        WakeupQuiet(t, j, w, now, x);
      } else {
        WakeupChildrenQuiet(t, i, j + 1, w, now, x);
      }
    }
  }

  // ---------------------------------------------------------------- a pass of a quiet tree

  ghost predicate QuietBelow(t: Tree, i: Cid, x: Time)
    requires At(t, i)
  {
    forall k :: i < k < |t.chans| && t.parents[k] == i ==> Quiet(t, k, x)
  }

  ghost predicate SameHeapKeys(t0: Tree, t: Tree, k: Cid)
    requires k < |t0.chans|
  {
    forall r :: r in t0.chans[k].eta.known + t0.chans[k].due.known ==> KeyOf(t.keys, r) == KeyOf(t0.keys, r)
  }

  /** A channel the sweep has not reached: only its due heap may have grown, and not even that
      when everything below it is quiet. */
  ghost predicate Unvisited(t0: Tree, t: Tree, k: Cid, x: Time)
    requires At(t0, k) && |t.chans| == |t0.chans|
  {
    && t.chans[k] == t0.chans[k].(due := t.chans[k].due)
    && (QuietBelow(t0, k, x) ==> t.chans[k] == t0.chans[k])
    && SameHeapKeys(t0, t, k)
  }

  /** A quiet channel the sweep has passed: still full, still paused, or unchanged but for trimming. */
  ghost predicate Calm(t0: Tree, t: Tree, k: Cid)
    requires k < |t0.chans| && |t.chans| == |t0.chans|
  {
    var c0, c := t0.chans[k], t.chans[k];
    && c == c0.(due := c.due, eta := c.eta, pause := c.pause)
    && (HasCapacity(c0) ==>
          && c.pause == c0.pause
          && (c0.pause == 0.0 ==> Trimmed(c0, c) && SameHeapKeys(t0, t, k)))
  }

  ghost predicate QuietSweep(t0: Tree, t: Tree, done: set<Cid>, x: Time) {
    && Inv(t0) && Inv(t) && |t.chans| == |t0.chans| && t.parents == t0.parents && t.info == t0.info
    && (forall k :: 0 <= k < |t0.chans| && k !in done ==> Unvisited(t0, t, k, x))
    && (forall k :: 0 <= k < |t0.chans| && k in done && Quiet(t0, k, x) ==> Calm(t0, t, k))
  }

  /** A quiet channel, met before it is drained, is idle. */
  lemma QuietIsIdle(t0: Tree, t: Tree, k: Cid, x: Time)
    requires Inv(t0) && k < |t0.chans| && |t.chans| == |t0.chans| && Quiet(t0, k, x) && Unvisited(t0, t, k, x)
    ensures Idle(t.chans[k], t.keys, x)
    ensures HasCapacity(t0.chans[k]) == HasCapacity(t.chans[k])
    ensures HasCapacity(t0.chans[k]) && t0.chans[k].pause == 0.0 ==> t.chans[k] == t0.chans[k]
  {
    var c := t0.chans[k];
    if c.pause == 0.0 && HasCapacity(c) {
      StuckSame(c, t0.keys, c, t.keys, x);
    }
  }

  /** Draining a quiet channel yields nothing and leaves it calm. */
  lemma QuietDrain(t0: Tree, t: Tree, k: Cid, x: Time, done: set<Cid>)
    requires QuietSweep(t0, t, done, x) && k < |t0.chans| && k !in done && Quiet(t0, k, x)
    ensures var (t', ys) := DrainAt(t, k, x);
            ys == [] && t'.keys == t.keys && t'.chans == t.chans[k := t'.chans[k]] && Calm(t0, t', k)
  {
    assert Unvisited(t0, t, k, x);
    assert ChanOk(t, k);
    hide Quiet, QuietBelow, Drain, Inv, Idle, Stuck;
    QuietIsIdle(t0, t, k, x);
    DrainIdle(t.chans[k], t.keys, x);
  }

  /** Draining `k` leaves the keys in the original heaps of every other channel alone. */
  lemma HeapKeysKept(t0: Tree, t: Tree, k: Cid, x: Time, d: Cid)
    requires Inv(t0) && Inv(t) && |t.chans| == |t0.chans| && t.info == t0.info
    requires k < |t0.chans| && d < |t0.chans| && d != k && SameHeapKeys(t0, t, d)
    ensures SameHeapKeys(t0, DrainAt(t, k, x).0, d)
  {
    hide DrainAt;
    assert ChanOk(t0, d) && ChanOk(t, k);
    DrainAtFacts(t, k, x);
  }

  lemma {:induction false} EnqueueAllDue(t: Tree, i: Cid, ys: seq<Ref>)
    requires At(t, i) && forall r :: r in ys ==> !HasEta(t.keys, r)
    ensures var t' := EnqueueAll(t, i, ys);
            t'.info == t.info && t'.keys == t.keys && t'.chans[i] == t.chans[i].(due := t'.chans[i].due)
    decreases |ys|
  {
    if ys != [] {
      assert ys[0] in ys;
      EnqueueAllDue(Put(t, i, Enqueue(t.chans[i], t.keys, ys[0])), i, ys[1..]);
    }
  }

  /** What one step of the sweep changes: channel `k`, and the due heap of its parent. */
  lemma PullUpEffect(t: Tree, k: Cid, x: Time)
    requires Inv(t) && 0 < k < |t.chans|
    ensures var (t1, ys) := DrainAt(t, k, x);
            var t' := PullUp(t, k, x);
            var p := t.parents[k];
            && t'.info == t.info && t'.keys == t1.keys && t'.chans[k] == t1.chans[k]
            && (forall d :: 0 <= d < |t.chans| && d != k && d != p ==> t'.chans[d] == t.chans[d])
            && t'.chans[p] == t.chans[p].(due := t'.chans[p].due)
            && (ys == [] ==> t'.chans[p] == t.chans[p])
  {
    hide DrainAt, EnqueueAll;
    var (t1, ys) := DrainAt(t, k, x);
    DrainAtFacts(t, k, x);
    DrainAtKeeps(t, k, x);
    forall r | r in ys ensures !HasEta(t1.keys, r) { assert HandedUp(t1, k, r); }
    EnqueueAllDue(t1, t.parents[k], ys);
    EnqueueAllFrame(t1, t.parents[k], ys);
    if ys == [] { EnqueueNone(t1, t.parents[k]); }
  }

  lemma EnqueueNone(t: Tree, i: Cid)
    requires At(t, i)
    ensures EnqueueAll(t, i, []) == t
  {
  }

  lemma UnvisitedKept(t0: Tree, t: Tree, k: Cid, x: Time, done: set<Cid>, d: Cid)
    requires QuietSweep(t0, t, done, x) && 0 < k < |t0.chans| && k !in done && d < |t0.chans| && d !in done && d != k
    requires Quiet(t0, k, x) ==> DrainAt(t, k, x).1 == []
    ensures Unvisited(t0, PullUp(t, k, x), d, x)
  {
    hide Quiet, Inv, DrainAt, PullUp;
    InvSized(t);
    assert Unvisited(t0, t, d, x);
    PullUpEffect(t, k, x);
    HeapKeysKept(t0, t, k, x, d);
  }

  lemma CalmKept(t0: Tree, t: Tree, k: Cid, x: Time, done: set<Cid>, d: Cid)
    requires QuietSweep(t0, t, done, x) && 0 < k < |t0.chans| && d < |t0.chans| && d in done && d != k && d != t0.parents[k]
    requires Quiet(t0, d, x)
    ensures Calm(t0, PullUp(t, k, x), d)
  {
    hide Quiet, Inv, DrainAt, PullUp;
    InvSized(t);
    assert Calm(t0, t, d);
    PullUpEffect(t, k, x);
    if SameHeapKeys(t0, t, d) { HeapKeysKept(t0, t, k, x, d); }
  }

  lemma QuietStep(t0: Tree, t: Tree, k: Cid, x: Time, done: set<Cid>)
    requires QuietSweep(t0, t, done, x) && 0 < k < |t0.chans| && k !in done && t0.parents[k] !in done
    ensures QuietSweep(t0, PullUp(t, k, x), done + {k}, x)
  {
    hide Quiet, Inv, DrainAt, PullUp, Calm, Unvisited;
    InvSized(t);
    var t' := PullUp(t, k, x);
    PullUpKeeps(t, k, x);
    PullUpEffect(t, k, x);
    if Quiet(t0, k, x) { QuietDrain(t0, t, k, x, done); QuietSelf(t0, DrainAt(t, k, x).0, t', k); }
    forall d | 0 <= d < |t0.chans| && d !in done + {k} ensures Unvisited(t0, t', d, x) {
      UnvisitedKept(t0, t, k, x, done, d);
    }
    forall d | 0 <= d < |t0.chans| && d in done + {k} && Quiet(t0, d, x) ensures Calm(t0, t', d) {
      if d != k { CalmKept(t0, t, k, x, done, d); }
    }
  }

  lemma QuietSelf(t0: Tree, t1: Tree, t': Tree, k: Cid)
    requires k < |t0.chans| && |t1.chans| == |t0.chans| == |t'.chans|
    requires Calm(t0, t1, k) && t'.chans[k] == t1.chans[k] && t'.keys == t1.keys
    ensures Calm(t0, t', k)
  {
  }

  lemma QuietSweepShape(t0: Tree, t: Tree, done: set<Cid>, x: Time)
    requires QuietSweep(t0, t, done, x)
    ensures Sized(t) && t.parents == t0.parents && |t.chans| == |t0.chans|
  {
    InvSized(t);
  }

  lemma {:induction false} SweepQuiet(t0: Tree, t: Tree, ks: seq<Cid>, x: Time, done: set<Cid>)
    requires QuietSweep(t0, t, done, x) && BottomUp(t0.parents, ks) && |t0.parents| == |t0.chans|
    requires forall a :: 0 <= a < |ks| ==> ks[a] !in done && t0.parents[ks[a]] !in done
    ensures Sized(t) && QuietSweep(t0, Sweep(t, ks, x), done + Members(ks), x)
    decreases |ks|
  {
    hide QuietSweep, PullUp;
    QuietSweepShape(t0, t, done, x);
    if ks == [] {
      assert done + Members(ks) == done;
    } else {
      var k := ks[0];
      QuietStep(t0, t, k, x, done);
      SweepQuiet(t0, PullUp(t, k, x), ks[1..], x, done + {k});
      assert done + {k} + Members(ks[1..]) == done + Members(ks);
    }
  }

  /** A pass of a quiet tree yields nothing and leaves every quiet channel calm. */
  lemma QuietPass(t: Tree, x: Time)
    requires Inv(t) && Quiet(t, 0, x)
    ensures var (t', ys) := Pass(t, 0, x);
            ys == [] && forall k :: 0 <= k < |t.chans| && Quiet(t, k, x) ==> Calm(t, t', k)
  {
    InvSized(t);
    hide Inv, Sweep, DrainAt, Pass, Quiet, Calm;
    var ks := Order(t.parents, 0);
    RootOrder(t.parents);
    assert QuietSweep(t, t, {}, x);
    SweepQuiet(t, t, ks, x, {});
    var t1 := Sweep(t, ks, x);
    var done := {} + Members(ks);
    QuietDrain(t, t1, 0, x, done);
    PassIsSweep(t, 0, x);
    var t' := DrainAt(t1, 0, x).0;
    forall k | 0 <= k < |t.chans| && Quiet(t, k, x) ensures Calm(t, t', k) {
      if k != 0 { QuietSelf(t, t1, t', k); }
    }
  }

  /** Quiet now and quiet at a later time: a pass now does not spoil the later time. */
  lemma {:induction false} QuietStays(t: Tree, t': Tree, i: Cid, x: Time, y: Time)
    requires Inv(t) && Sized(t') && |t'.chans| == |t.chans| && t'.parents == t.parents && i < |t.chans|
    requires forall k :: 0 <= k < |t.chans| && Quiet(t, k, x) ==> Calm(t, t', k)
    requires Quiet(t, i, x) && Quiet(t, i, y)
    ensures Quiet(t', i, y)
    decreases |t.chans| - i
  {
    var c, c' := t.chans[i], t'.chans[i];
    assert Calm(t, t', i);
    assert HasCapacity(c') == HasCapacity(c);
    if HasCapacity(c) && c.pause == 0.0 {
      StuckSame(c, t.keys, c', t'.keys, y);
      forall k | i < k < |t.chans| && t.parents[k] == i ensures Quiet(t', k, y) {
        QuietStays(t, t', k, x, y);
      }
    }
  }

  // ------------------------------------------------------------------- asking for the time

  ghost predicate Housekept(t: Tree, t': Tree) {
    && t' == t.(chans := t'.chans) && |t'.chans| == |t.chans|
    && forall k :: 0 <= k < |t.chans| ==> Trimmed(t.chans[k], t'.chans[k])
  }

  lemma HousekeptThen(t: Tree, t1: Tree, t2: Tree)
    requires Housekept(t, t1) && Housekept(t1, t2)
    ensures Housekept(t, t2)
  {
    forall k | 0 <= k < |t.chans| ensures Trimmed(t.chans[k], t2.chans[k]) {
      assert Trimmed(t.chans[k], t1.chans[k]) && Trimmed(t1.chans[k], t2.chans[k]);
    }
  }

  ghost predicate ValidHeaps(t: Tree) {
    forall k :: 0 <= k < |t.chans| ==> t.chans[k].due.Valid() && t.chans[k].eta.Valid()
  }

  lemma LookOne(t: Tree, i: Cid)
    requires At(t, i) && ValidHeaps(t)
    ensures var c := t.chans[i];
            Housekept(t, Put(t, i, if c.eta.Len() == 0 then c else c.(eta := c.eta.Trim(t.keys)))) && Housekept(t, t)
  {
    TrimKeepsLive(t.chans[i].eta, t.keys);
  }

  lemma {:induction false} LookKeeps(t: Tree, i: Cid)
    requires At(t, i) && ValidHeaps(t)
    ensures Housekept(t, Look(t, i))
    decreases |t.chans| - i, 1, 0
  {
    hide Trimmed;
    LookOne(t, i);
    var c := t.chans[i];
    if HasCapacity(c) && c.pause == 0.0 {
      var t1 := Put(t, i, if c.eta.Len() == 0 then c else c.(eta := c.eta.Trim(t.keys)));
      HousekeptValid(t, t1);
      LookChildrenKeeps(t1, i, i + 1);
      HousekeptThen(t, t1, Look(t, i));
    }
  }

  lemma HousekeptValid(t: Tree, t': Tree)
    requires Housekept(t, t')
    ensures ValidHeaps(t')
  {
    forall k | 0 <= k < |t'.chans| ensures t'.chans[k].due.Valid() && t'.chans[k].eta.Valid() {
      assert Trimmed(t.chans[k], t'.chans[k]);
    }
  }

  lemma {:induction false} LookChildrenKeeps(t: Tree, i: Cid, j: Cid)
    requires At(t, i) && i < j <= |t.chans| && ValidHeaps(t)
    ensures Housekept(t, LookChildren(t, i, j))
    decreases |t.chans| - i, 0, |t.chans| - j
  {
    hide Trimmed, ValidHeaps;
    assert Housekept(t, t) by { LookOne(t, i); }
    if j < |t.chans| {
      if t.parents[j] == i {
        LookKeeps(t, j);
        HousekeptValid(t, Look(t, j));
        LookChildrenKeeps(Look(t, j), i, j + 1);
        HousekeptThen(t, Look(t, j), LookChildren(t, i, j));
      } else {
        LookChildrenKeeps(t, i, j + 1);
      }
    }
  }

  lemma HousekeptGood(t: Tree, t': Tree)
    requires Good(t) && Housekept(t, t')
    ensures Good(t')
  {
    forall k | 0 <= k < |t'.chans| ensures ChanOk(t', k) && Local(t', k) && PauseOk(t'.chans[k]) {
      assert ChanOk(t, k) && Local(t, k) && PauseOk(t.chans[k]) && Trimmed(t.chans[k], t'.chans[k]);
      forall r | r in Present(t'.chans[k]) ensures Placed(t', k, r) {
        assert Placed(t, k, r);
        if t.info[r].chan != k {
          var b := Branch(t.parents, k, t.info[r].chan);
          assert Trimmed(t.chans[b], t'.chans[b]);
        }
      }
    }
  }

  lemma {:induction false} HousekeptQuiet(t: Tree, t': Tree, i: Cid, x: Time)
    requires At(t, i) && Housekept(t, t') && Quiet(t, i, x)
    ensures Sized(t') && Quiet(t', i, x)
    decreases |t.chans| - i
  {
    var c, c' := t.chans[i], t'.chans[i];
    assert Trimmed(c, c');
    StuckSame(c, t.keys, c', t.keys, x);
    if HasCapacity(c) && c.pause == 0.0 {
      forall k | i < k < |t.chans| && t.parents[k] == i ensures Quiet(t', k, x) {
        HousekeptQuiet(t, t', k, x);
      }
    }
  }

  // ------------------------------------------------------------------------- the theorem

  /** The runner's loop without notifications: ask for the wakeup time, then pass, at each of `ts`. */
  function Idling(t: Tree, ts: seq<Time>): seq<seq<Ref>>
    requires Sized(t)
    decreases |ts|
  {
    if ts == [] then []
    else
      var (t', ys) := Pass(Look(t, 0), 0, ts[0]);
      [ys] + Idling(t', ts[1..])
  }

  predicate Ascending(ts: seq<Time>) {
    forall a, b :: 0 <= a <= b < |ts| ==> ts[a] <= ts[b]
  }

  lemma {:induction false} IdlingYieldsNothing(t: Tree, ts: seq<Time>)
    requires Good(t) && Sized(t) && Ascending(ts)
    requires forall a :: 0 <= a < |ts| ==> ts[a] > 0.0 && Quiet(t, 0, ts[a])
    ensures |Idling(t, ts)| == |ts| && forall a :: 0 <= a < |ts| ==> Idling(t, ts)[a] == []
    decreases |ts|
  {
    hide Good, Quiet, Look, Pass;
    if ts != [] {
      var t0 := Look(t, 0);
      GoodHeaps(t);
      LookKeeps(t, 0);
      HousekeptGood(t, t0);
      forall a | 0 <= a < |ts| ensures Quiet(t0, 0, ts[a]) { HousekeptQuiet(t, t0, 0, ts[a]); }
      var (t', ys) := Pass(t0, 0, ts[0]);
      assert Inv(t0) by { GoodInv(t0); }
      QuietPass(t0, ts[0]);
      PassGood(t0, ts[0]);
      forall a | 0 <= a < |ts[1..]| ensures ts[1..][a] > 0.0 && Quiet(t', 0, ts[1..][a]) {
        QuietStays(t0, t', 0, ts[0], ts[a + 1]);
      }
      IdlingYieldsNothing(t', ts[1..]);
    }
  }

  lemma GoodInv(t: Tree)
    requires Good(t)
    ensures Inv(t)
  {
  }

  lemma GoodHeaps(t: Tree)
    requires Good(t)
    ensures ValidHeaps(t)
  {
    forall k | 0 <= k < |t.chans| ensures t.chans[k].due.Valid() && t.chans[k].eta.Valid() { assert ChanOk(t, k); }
  }

  /**
   Sleeping is safe and never busy. After a complete pass at `now` the wakeup time `w` is 0 or
   later than `now`; and at whatever times before `w` (at any times at all, when `w` is 0) the
   runner looks again without having been notified, every pass comes up empty.
   */
  lemma SleepIsSafe(t: Tree, now: Time, ts: seq<Time>)
    requires Good(t) && now > 0.0 && Sized(t) && Ascending(ts)
    requires var w := Wakeup(Pass(t, 0, now).0, 0, 0.0);
             forall a :: 0 <= a < |ts| ==> now <= ts[a] && (w == 0.0 || ts[a] < w)
    ensures var w := Wakeup(Pass(t, 0, now).0, 0, 0.0); w == 0.0 || w > now
    ensures |Idling(Pass(t, 0, now).0, ts)| == |ts|
    ensures forall a :: 0 <= a < |ts| ==> Idling(Pass(t, 0, now).0, ts)[a] == []
  {
    hide Good, Pass, Wakeup, Quiet, Idling;
    var t' := Pass(t, 0, now).0;
    PassGood(t, now);
    PassSettles(t, now);
    assert SettledTree(t', now);
    WakeupFuture(t', 0, 0.0, now);
    forall a | 0 <= a < |ts| ensures ts[a] > 0.0 && Quiet(t', 0, ts[a]) {
      WakeupQuiet(t', 0, 0.0, now, ts[a]);
    }
    IdlingYieldsNothing(t', ts);
  }

  // --------------------------------------------------------------------- no idle wakeups

  /** `v` is when channel `k` stops pausing, or when one of its deferred jobs is due. */
  ghost predicate Awaited(t: Tree, k: Cid, v: Time) {
    && k < |t.chans| && HasCapacity(t.chans[k])
    && if t.chans[k].pause != 0.0 then v == t.chans[k].pause else exists r :: r in t.chans[k].eta.Live() && v == EtaOf(t.keys, r)
  }

  lemma QueueAwaits(t: Tree, k: Cid, w: Time)
    requires At(t, k) && ValidHeaps(t) && HasCapacity(t.chans[k]) && t.chans[k].pause == 0.0
    ensures var v := QueueWakeup(t.chans[k], t.keys, w); v == w || Awaited(t, k, v)
  {
    var q := t.chans[k].eta;
    TrimKeepsLive(q, t.keys);
    EmptyQueue(q, t.keys);
    hide HasCapacity;
    if q.Live() != {} { assert Min(q.Live(), t.keys) in q.Live(); }
  }

  /** The runner is never woken for nothing: a wakeup time is the end of the pause of a channel
      that has capacity, or the eta of a job deferred in one. */
  lemma {:induction false} WakeupIsAwaited(t: Tree, i: Cid, w: Time)
    requires At(t, i) && ValidHeaps(t)
    ensures var v := Wakeup(t, i, w); v == w || exists k :: Awaited(t, k, v)
    decreases |t.chans| - i, 1, 0
  {
    hide ValidHeaps, QueueWakeup;
    var c := t.chans[i];
    if HasCapacity(c) {
      if c.pause != 0.0 { assert Awaited(t, i, c.pause); }
      else {
        QueueAwaits(t, i, w);
        WakeupChildrenAwaited(t, i, i + 1, QueueWakeup(c, t.keys, w));
      }
    }
  }

  lemma {:induction false} WakeupChildrenAwaited(t: Tree, i: Cid, j: Cid, w: Time)
    requires At(t, i) && i < j <= |t.chans| && ValidHeaps(t)
    ensures var v := WakeupChildren(t, i, j, w); v == w || exists k :: Awaited(t, k, v)
    decreases |t.chans| - i, 0, |t.chans| - j
  {
    hide ValidHeaps, Awaited;
    if j < |t.chans| {
      if t.parents[j] == i {
        WakeupIsAwaited(t, j, w);
        WakeupChildrenAwaited(t, i, j + 1, Wakeup(t, j, w));
      } else {
        WakeupChildrenAwaited(t, i, j + 1, w);
      }
    }
  }
}
