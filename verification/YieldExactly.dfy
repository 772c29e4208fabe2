/**
 Exactly when a channel yields a job, said with its own settings and contents only: whether it is
 blocked by a failed job, full or paused, which jobs are eligible, and how ranks compare.
 */
module YieldExactly {
  import opened Options
  import opened JobQueue
  import opened ChannelTree
  import opened ChannelDrain
  import opened Traversal
  import opened Frontier
  import opened SchedulerRuns

  // ------------------------------------------------------------------- one channel, exactly

  /** Neither blocked by a failed job, nor full, nor paused. */
  predicate Open(c: Chan, now: Time) {
    && (c.sequential ==> c.failed == {})
    && (c.capacity == None || c.capacity == Some(0) || |c.running| < c.capacity.value)
    && (c.throttle == 0 || c.pause == 0.0 || c.pause <= now)
  }

  /** No eligible job comes before `j`. */
  ghost predicate Foremost(c: Chan, keys: Keys, now: Time, j: Ref) {
    j in Eligible(c, keys, now) && forall x :: x in Eligible(c, keys, now) ==> !Precedes(keys, x, j)
  }

  /** Of the jobs that are still deferred, none has an earlier eta than `w` or comes before it at
      the same eta. */
  ghost predicate Earliest(c: Chan, keys: Keys, now: Time, w: Ref) {
    && w in c.eta.Live() && EtaOf(keys, w) > now
    && forall x :: x in c.eta.Live() && EtaOf(keys, x) > now ==>
         EtaOf(keys, w) < EtaOf(keys, x) || (EtaOf(keys, w) == EtaOf(keys, x) && !Precedes(keys, x, w))
  }

  /** A foremost job may go: in a sequential channel the earliest deferred job does not come before it. */
  ghost predicate MayGo(c: Chan, keys: Keys, now: Time, j: Ref) {
    Foremost(c, keys, now, j) && (c.sequential ==> forall w :: Earliest(c, keys, now, w) ==> !Precedes(keys, w, j))
  }

  lemma MinIsForemost(c: Chan, keys: Keys, now: Time, keys': Keys)
    requires QueueOk(c, keys) && LostEta(keys, keys', Ready(c, keys, now)) && Eligible(c, keys, now) != {}
    ensures Foremost(c, keys, now, Min(Eligible(c, keys, now), keys'))
  {
    var ok := Eligible(c, keys, now);
    var j := Min(ok, keys');
    EligibleLoseEta(c, keys, now, keys');
    forall x | x in ok ensures !Precedes(keys, x, j) {
      assert RankOf(keys, x) == RankOf(keys', x) && RankOf(keys, j) == RankOf(keys', j);
      assert x == j || Before(keys', j, x);
      RankLessIsTupleOrder(RankOf(keys, x), RankOf(keys, j));
    }
  }

  lemma ForemostSameRank(c: Chan, keys: Keys, now: Time, a: Ref, b: Ref)
    requires Foremost(c, keys, now, a) && Foremost(c, keys, now, b)
    ensures RankOf(keys, a) == RankOf(keys, b)
  {
    RankLessIsTupleOrder(RankOf(keys, a), RankOf(keys, b));
    RankLessIsTupleOrder(RankOf(keys, b), RankOf(keys, a));
  }

  lemma MinIsEarliest(c: Chan, keys: Keys, now: Time, keys': Keys)
    requires QueueOk(c, keys) && LostEta(keys, keys', Ready(c, keys, now)) && c.eta.Live() - Ready(c, keys, now) != {}
    ensures Earliest(c, keys, now, Min(c.eta.Live() - Ready(c, keys, now), keys'))
  {
    var later := c.eta.Live() - Ready(c, keys, now);
    var m := Min(later, keys');
    forall x | x in later
      ensures EtaOf(keys, m) < EtaOf(keys, x) || (EtaOf(keys, m) == EtaOf(keys, x) && !Precedes(keys, x, m))
    {
      assert x in keys && m in keys && keys'[x] == keys[x] && keys'[m] == keys[m];
      assert x == m || Before(keys', m, x);
      RankLessIsTupleOrder(RankOf(keys, x), RankOf(keys, m));
    }
  }

  lemma EarliestSameRank(c: Chan, keys: Keys, now: Time, a: Ref, b: Ref)
    requires Earliest(c, keys, now, a) && Earliest(c, keys, now, b)
    ensures RankOf(keys, a) == RankOf(keys, b)
  {
    RankLessIsTupleOrder(RankOf(keys, a), RankOf(keys, b));
    RankLessIsTupleOrder(RankOf(keys, b), RankOf(keys, a));
  }

  /** Any foremost job will do. */
  lemma ForemostAlike(c: Chan, keys: Keys, now: Time, i: Ref, j: Ref)
    requires MayGo(c, keys, now, i) && Foremost(c, keys, now, j)
    ensures MayGo(c, keys, now, j)
  {
    ForemostSameRank(c, keys, now, i, j);
    SameRankPrecedes(keys, i, j);
  }

  lemma PoppedMeans(c: Chan, keys: Keys, now: Time, c': Chan, keys': Keys, o: Option<Ref>)
    requires QueueOk(c, keys) && Popped(c, keys, now, c', keys', o) && Eligible(c, keys, now) != {}
    ensures o.Some? <==> !Outranked(c', keys', Min(Eligible(c, keys, now), keys'))
  {
    hide Outranked, Eligible, QueueOk;
  }

  /** A pop comes up with a job exactly when one may go. */
  lemma PopsExactlyWhen(c: Chan, keys: Keys, now: Time)
    requires QueueOk(c, keys)
    ensures PopJob(c, keys, now).2.Some? <==> exists j :: MayGo(c, keys, now, j)
  {
    var (c', keys', o) := PopJob(c, keys, now);
    PopEffect(c, keys, now);
    if Eligible(c, keys, now) != {} {
      var j := Min(Eligible(c, keys, now), keys');
      MinIsForemost(c, keys, now, keys');
      PoppedMeans(c, keys, now, c', keys', o);
      OutrankedMeans(c, keys, now, c', keys', j);
      hide PopJob, Precedes, QueueOk, Popped, Outranked, Earliest, Foremost, Eligible;
      assert o.Some? <==> MayGo(c, keys, now, j);
      if i :| MayGo(c, keys, now, i) { ForemostAlike(c, keys, now, i, j); }
    } else {
      hide PopJob, Precedes, QueueOk, Earliest;
    }
  }

  lemma SameRankPrecedes(keys: Keys, i: Ref, j: Ref)
    requires RankOf(keys, i) == RankOf(keys, j)
    ensures forall w :: Precedes(keys, w, i) <==> Precedes(keys, w, j)
  {
  }

  lemma OutrankedMeans(c: Chan, keys: Keys, now: Time, c': Chan, keys': Keys, j: Ref)
    requires QueueOk(c, keys) && LostEta(keys, keys', Ready(c, keys, now)) && c'.sequential == c.sequential
    requires c'.eta.Live() == c.eta.Live() - Ready(c, keys, now) && j in Eligible(c, keys, now)
    ensures Outranked(c', keys', j) <==> c.sequential && exists w :: Earliest(c, keys, now, w) && Precedes(keys, w, j)
  {
    var later := c.eta.Live() - Ready(c, keys, now);
    forall w | Earliest(c, keys, now, w) ensures w in later {}
    EligibleLoseEta(c, keys, now, keys');
    assert RankOf(keys', j) == RankOf(keys, j);
    if later != {} {
      var m := Min(later, keys');
      MinIsEarliest(c, keys, now, keys');
      assert RankOf(keys', m) == RankOf(keys, m);
      RankLessIsTupleOrder(RankOf(keys, m), RankOf(keys, j));
      forall w | Earliest(c, keys, now, w) ensures RankOf(keys, w) == RankOf(keys, m) { EarliestSameRank(c, keys, now, w, m); }
    }
  }

  /** A channel that is not open yields nothing and keeps its jobs where they are. */
  lemma ClosedYieldsNothing(c: Chan, keys: Keys, now: Time)
    requires !Open(c, now)
    ensures var (c', keys', ys) := Drain(c, keys, now); ys == [] && keys' == keys && c' == c.(pause := c'.pause)
  {
  }

  /** A channel yields a job exactly when it is open and one may go. */
  lemma YieldsExactlyWhen(c: Chan, keys: Keys, now: Time)
    requires QueueOk(c, keys)
    ensures Drain(c, keys, now).2 != [] <==> Open(c, now) && exists j :: MayGo(c, keys, now, j)
  {
    if !Open(c, now) { ClosedYieldsNothing(c, keys, now); }
    else {
      var c0 := if c.throttle != 0 && c.pause != 0.0 then c.(pause := 0.0) else c;
      PopsExactlyWhen(c0, keys, now);
      forall j ensures MayGo(c0, keys, now, j) <==> MayGo(c, keys, now, j) { PauseApart(c, keys, now, c0, j); }
      hide PopJob, MayGo, QueueOk;
    }
  }

  lemma PauseApart(c: Chan, keys: Keys, now: Time, c0: Chan, j: Ref)
    requires c0 == c.(pause := c0.pause)
    ensures MayGo(c0, keys, now, j) <==> MayGo(c, keys, now, j)
  {
    assert Eligible(c0, keys, now) == Eligible(c, keys, now);
    forall w ensures Earliest(c0, keys, now, w) <==> Earliest(c, keys, now, w) {}
  }

  // ----------------------------------------------------- a failed job blocks a whole pass

  /** Channel `k` is sequential and has a failed job; nothing entered, and it yielded nothing. */
  ghost predicate HeldBack(t: Tree, t': Tree, k: Cid) {
    && k < |t.chans| && k < |t'.chans| && t.log <= t'.log
    && t'.chans[k].sequential == t.chans[k].sequential && t'.chans[k].failed == t.chans[k].failed
    && t'.chans[k].running == t.chans[k].running
    && forall a :: |t.log| <= a < |t'.log| ==> t'.log[a].chan != k
  }

  predicate FailedBlocks(c: Chan) { c.sequential && c.failed != {} }

  lemma HeldBackThen(t: Tree, t1: Tree, t2: Tree, k: Cid)
    requires HeldBack(t, t1, k) && HeldBack(t1, t2, k)
    ensures HeldBack(t, t2, k)
  {
    forall a | |t.log| <= a < |t1.log| ensures t2.log[a] == t1.log[a] {}
  }

  lemma DrainHeldBack(t: Tree, i: Cid, now: Time, k: Cid)
    requires At(t, i) && k < |t.chans| && FailedBlocks(t.chans[k])
    ensures HeldBack(t, DrainAt(t, i, now).0, k)
  {
    ClosedYieldsNothing(t.chans[k], t.keys, now);
    hide Drain;
    if i == k { assert LogOf(i, now, []) == []; }
  }

  lemma {:induction false} EnqueueHeldBack(t: Tree, i: Cid, ys: seq<Ref>, k: Cid)
    requires At(t, i) && k < |t.chans|
    ensures HeldBack(t, EnqueueAll(t, i, ys), k)
    decreases |ys|
  {
    if ys != [] { EnqueueHeldBack(Put(t, i, Enqueue(t.chans[i], t.keys, ys[0])), i, ys[1..], k); }
  }

  lemma {:induction false} SweepHeldBack(t: Tree, ks: seq<Cid>, now: Time, k: Cid)
    requires Sized(t) && Visits(|t.chans|, ks) && k < |t.chans| && FailedBlocks(t.chans[k])
    ensures HeldBack(t, Sweep(t, ks, now), k)
    decreases |ks|
  {
    hide DrainAt, EnqueueAll;
    if ks != [] {
      var (t1, ys) := DrainAt(t, ks[0], now);
      DrainHeldBack(t, ks[0], now, k);
      EnqueueHeldBack(t1, t.parents[ks[0]], ys, k);
      var t2 := PullUp(t, ks[0], now);
      HeldBackThen(t, t1, t2, k);
      SweepHeldBack(t2, ks[1..], now, k);
      HeldBackThen(t, t2, Sweep(t, ks, now), k);
    }
  }

  /** A sequential channel with a failed job yields nothing in a whole pass, wherever it is. */
  lemma FailedBlocksPass(t: Tree, now: Time, k: Cid)
    requires Sized(t) && k < |t.chans| && t.chans[k].sequential && t.chans[k].failed != {}
    ensures HeldBack(t, Pass(t, 0, now).0, k)
  {
    hide Sweep, DrainAt, Pass;
    var ks := Order(t.parents, 0);
    SweepHeldBack(t, ks, now, k);
    DrainHeldBack(Sweep(t, ks, now), 0, now, k);
    PassIsSweep(t, 0, now);
    HeldBackThen(t, Sweep(t, ks, now), Pass(t, 0, now).0, k);
  }

  /** What a channel yields in a pass, exactly: something if and only if it is open when its turn
      comes and one of the jobs it then has may go. */
  lemma PassYieldsExactlyWhen(t: Tree, i: Cid, now: Time)
    requires Inv(t) && i < |t.chans|
    ensures Sized(t) && var s := PassChildren(t, i, i + 1, now);
            Pass(t, i, now).1 != [] <==> Open(s.chans[i], now) && exists j :: MayGo(s.chans[i], s.keys, now, j)
  {
    InvSized(t);
    var s := PassChildren(t, i, i + 1, now);
    PassChildrenIsSweep(t, i, i + 1, now);
    hide Inv;
    SweepKeeps(t, OrderChildren(t.parents, i, i + 1), now);
    QueuesOk(s, i);
    hide PassChildren, Drain, Open, MayGo;
    YieldsExactlyWhen(s.chans[i], s.keys, now);
  }

  lemma QueuesOk(t: Tree, i: Cid)
    requires Inv(t) && i < |t.chans|
    ensures QueueOk(t.chans[i], t.keys)
  {
    assert ChanOk(t, i);
  }
}
