/**
 What every notification, removal and scheduling pass keeps of the channel tree.

 `Inv` is stated channel by channel; `FrontierShape` reads off what it means along the path
 from a job's own channel to the root.
 */
module Frontier {
  import opened JobQueue
  import opened ChannelTree
  import opened ChannelDrain
  import opened Traversal

  function Present(c: Chan): set<Ref> { Queued(c) + c.running + c.failed }

  /** Heaps are sound: eta heaps hold only jobs of the channel itself, and jobs that have an eta. */
  ghost predicate ChanOk(t: Tree, k: Cid)
    requires k < |t.chans|
  {
    var c := t.chans[k];
    && QueueOk(c, t.keys)
    && (forall r :: r in c.eta.known ==> r in t.info && t.info[r].chan == k)
    && c.running <= t.info.Keys && c.failed <= t.info.Keys
  }

  ghost predicate Wf(t: Tree) {
    && Sized(t) && t.keys.Keys == t.info.Keys
    && (forall r :: r in t.info ==> t.info[r].chan < |t.chans|)
    && (forall u :: u in t.byUuid ==> t.byUuid[u] in t.info && t.info[t.byUuid[u]].uuid == u)
    && (forall k :: 0 <= k < |t.chans| ==> ChanOk(t, k))
  }

  /** One job seen from one channel: it sits on the path of its own channel, it is the live
      object of its uuid, and above its own channel it came up through the channel below. */
  ghost predicate Placed(t: Tree, k: Cid, r: Ref)
    requires Sized(t) && k < |t.chans|
  {
    && r in t.info && t.info[r].chan < |t.chans|
    && Under(t.parents, k, t.info[r].chan)
    && t.info[r].uuid in t.byUuid && t.byUuid[t.info[r].uuid] == r
    && (t.info[r].chan != k ==>
          && r !in t.chans[k].failed
          && r in t.chans[Branch(t.parents, k, t.info[r].chan)].running)
  }

  predicate Apart(c: Chan) {
    Queued(c) !! c.running && Queued(c) !! c.failed && c.running !! c.failed
  }

  ghost predicate Local(t: Tree, k: Cid)
    requires Sized(t) && k < |t.chans|
  {
    Apart(t.chans[k]) && forall r :: r in Present(t.chans[k]) ==> Placed(t, k, r)
  }

  ghost predicate Inv(t: Tree) {
    Wf(t) && forall k :: 0 <= k < |t.chans| ==> Local(t, k)
  }

  // --------------------------------------------------------------------- one drain

  lemma DrainAtFacts(t: Tree, k: Cid, now: Time)
    requires Wf(t) && k < |t.chans|
    ensures var (t', ys) := DrainAt(t, k, now);
            && Drained(t.chans[k], t.keys, t'.chans[k], t'.keys, ys)
            && t'.info == t.info && t'.byUuid == t.byUuid && t'.parents == t.parents
            && t'.chans == t.chans[k := t'.chans[k]]
            && t'.log == t.log + LogOf(k, now, ys)
  {
    assert ChanOk(t, k);
    hide Drain;
    DrainEffect(t.chans[k], t.keys, now);
  }

  lemma DrainAtWf(t: Tree, k: Cid, t': Tree, ys: seq<Ref>)
    requires Wf(t) && k < |t.chans| && Sized(t') && |t'.chans| == |t.chans|
    requires Drained(t.chans[k], t.keys, t'.chans[k], t'.keys, ys)
    requires t'.info == t.info && t'.byUuid == t.byUuid && t'.chans == t.chans[k := t'.chans[k]]
    ensures Wf(t')
  {
    var c, c' := t.chans[k], t'.chans[k];
    assert ChanOk(t, k);
    forall j | 0 <= j < |t'.chans| ensures ChanOk(t', j) {
      assert ChanOk(t, j);
      if j == k {
        forall r | r in c'.running ensures r in t.info {
          if r !in c.running { assert r in Members(ys) && r in Queued(c); }
        }
      } else {
        OtherQueueOk(t, k, j, t'.keys, c.eta.Live() - c'.eta.Live());
      }
    }
  }

  /** Releasing deferred jobs of one channel never changes a key in another channel's heaps. */
  lemma OtherQueueOk(t: Tree, k: Cid, j: Cid, keys': Keys, gone: set<Ref>)
    requires Wf(t) && k < |t.chans| && j < |t.chans| && j != k
    requires gone <= t.chans[k].eta.known && LostEta(t.keys, keys', gone)
    ensures QueueOk(t.chans[j], keys')
    ensures forall r :: r in t.chans[j].eta.known + t.chans[j].due.known ==> keys'[r] == t.keys[r]
  {
    assert ChanOk(t, k) && ChanOk(t, j);
  }

  lemma DrainAtLocal(t: Tree, k: Cid, t': Tree, ys: seq<Ref>)
    requires Inv(t) && k < |t.chans| && Wf(t') && |t'.chans| == |t.chans| && t'.parents == t.parents
    requires Drained(t.chans[k], t.keys, t'.chans[k], t'.keys, ys)
    requires t'.info == t.info && t'.byUuid == t.byUuid && t'.chans == t.chans[k := t'.chans[k]]
    ensures Inv(t')
  {
    var c, c' := t.chans[k], t'.chans[k];
    forall j | 0 <= j < |t'.chans| ensures Local(t', j) {
      assert Local(t, j);
      assert Present(t'.chans[j]) <= Present(t.chans[j]);
      forall r | r in Present(t'.chans[j]) ensures Placed(t', j, r) {
        assert Placed(t, j, r);
      }
    }
  }

  /** What a channel yields runs in it, and is neither queued nor running in its parent. */
  ghost predicate HandedUp(t: Tree, k: Cid, r: Ref)
    requires Sized(t) && 0 < k < |t.chans|
  {
    && r in t.chans[k].running && r in t.keys && t.keys[r].eta.None?
    && r !in t.chans[t.parents[k]].running
  }

  lemma DrainAtHandsUp(t: Tree, k: Cid, t': Tree, ys: seq<Ref>, r: Ref)
    requires Inv(t) && 0 < k < |t.chans| && Inv(t') && |t'.chans| == |t.chans| && t'.parents == t.parents
    requires Drained(t.chans[k], t.keys, t'.chans[k], t'.keys, ys)
    requires t'.chans == t.chans[k := t'.chans[k]] && r in ys
    ensures HandedUp(t', k, r)
  {
    var p := t.parents[k];
    var c := t.chans[k];
    assert r in Members(ys) && r in Queued(c);
    assert Local(t, k) && Placed(t, k, r);
    assert ChanOk(t, k);
    DrainedNoEta(c, t.keys, t'.chans[k], t'.keys, ys, r);
    assert Local(t, p);
    assert r in t.chans[p].running ==> Placed(t, p, r);
    UnderChild(t.parents, p, k, t.info[r].chan);
  }

  lemma EnqueueOneKeeps(t: Tree, k: Cid, r: Ref)
    requires Inv(t) && 0 < k < |t.chans| && HandedUp(t, k, r)
    ensures var p := t.parents[k]; Inv(Put(t, p, Enqueue(t.chans[p], t.keys, r)))
  {
    var p := t.parents[k];
    var c := t.chans[p];
    assert ChanOk(t, p) && Local(t, k) && Placed(t, k, r) && Local(t, p);
    var c' := Enqueue(c, t.keys, r);
    assert c' == c.(due := c.due.Add(r));
    AddRemoveAreSetOps(c.due, r);
    var t' := Put(t, p, c');
    UnderChild(t.parents, p, k, t.info[r].chan);
    assert Queued(c') == Queued(c) + {r};
    EnqueueOneWf(t, p, r);
    assert r in c.failed ==> Placed(t, p, r);
    forall j | 0 <= j < |t'.chans| ensures Local(t', j) {
      assert Local(t, j);
      forall x | x in Present(t'.chans[j]) ensures Placed(t', j, x) {
        if x in Present(t.chans[j]) { assert Placed(t, j, x); } else { assert x == r && j == p; }
      }
    }
  }

  lemma EnqueueOneWf(t: Tree, p: Cid, r: Ref)
    requires Wf(t) && p < |t.chans| && r in t.keys && t.keys[r].eta.None?
    ensures Wf(Put(t, p, Enqueue(t.chans[p], t.keys, r)))
  {
    var t' := Put(t, p, Enqueue(t.chans[p], t.keys, r));
    forall j | 0 <= j < |t'.chans| ensures ChanOk(t', j) {
      assert ChanOk(t, j);
    }
  }

  lemma {:induction false} EnqueueAllKeeps(t: Tree, k: Cid, ys: seq<Ref>)
    requires Inv(t) && 0 < k < |t.chans| && forall r :: r in ys ==> HandedUp(t, k, r)
    ensures Inv(EnqueueAll(t, t.parents[k], ys))
    decreases |ys|
  {
    InvSized(t);
    hide Inv, Enqueue;
    if ys != [] {
      var p := t.parents[k];
      assert ys[0] in ys;
      EnqueueOneKeeps(t, k, ys[0]);
      var t' := Put(t, p, Enqueue(t.chans[p], t.keys, ys[0]));
      assert t'.chans[p].running == t.chans[p].running by { EnqueueFrame(t.chans[p], t.keys, ys[0]); }
      forall r | r in ys[1..] ensures HandedUp(t', k, r) { assert HandedUp(t, k, r); }
      EnqueueAllKeeps(t', k, ys[1..]);
    }
  }

  lemma EnqueueFrame(c: Chan, keys: Keys, r: Ref)
    ensures var c' := Enqueue(c, keys, r);
            c' == c.(due := c'.due, eta := c'.eta)
  {
  }

  lemma DrainAtKeeps(t: Tree, k: Cid, now: Time)
    requires Inv(t) && k < |t.chans|
    ensures var (t', ys) := DrainAt(t, k, now);
            Inv(t') && (k > 0 ==> forall r :: r in ys ==> HandedUp(t', k, r))
  {
    hide DrainAt, Drained;
    var (t', ys) := DrainAt(t, k, now);
    DrainAtFacts(t, k, now);
    DrainAtWf(t, k, t', ys);
    DrainAtLocal(t, k, t', ys);
    if k > 0 {
      forall r | r in ys ensures HandedUp(t', k, r) { DrainAtHandsUp(t, k, t', ys, r); }
    }
  }

  lemma PullUpKeeps(t: Tree, k: Cid, now: Time)
    requires Inv(t) && 0 < k < |t.chans|
    ensures Inv(PullUp(t, k, now))
  {
    hide DrainAt, Inv, EnqueueAll;
    DrainAtKeeps(t, k, now);
    EnqueueAllKeeps(DrainAt(t, k, now).0, k, DrainAt(t, k, now).1);
  }

  lemma {:induction false} SweepKeeps(t: Tree, ks: seq<Cid>, now: Time)
    requires Inv(t) && Visits(|t.chans|, ks)
    ensures Inv(Sweep(t, ks, now))
    decreases |ks|
  {
    hide Inv, PullUp;
    if ks != [] {
      assert Inv(t) ==> Sized(t) by { InvSized(t); }
      PullUpKeeps(t, ks[0], now);
      SweepKeeps(PullUp(t, ks[0], now), ks[1..], now);
    }
  }

  lemma InvSized(t: Tree)
    ensures Inv(t) ==> Sized(t)
  {
  }

  /** A scheduling pass keeps the invariant. */
  lemma PassKeeps(t: Tree, now: Time)
    requires Inv(t)
    ensures Inv(Pass(t, 0, now).0)
  {
    hide Inv, Sweep, DrainAt, Pass;
    InvSized(t);
    var ks := Order(t.parents, 0);
    SweepKeeps(t, ks, now);
    DrainAtKeeps(Sweep(t, ks, now), 0, now);
    PassIsSweep(t, 0, now);
  }

  // ------------------------------------------------------------- updates along a path

  /** `RemoveUp` drops the job from the channel and all its ancestors, and nowhere else. */
  lemma {:induction false} RemoveUpEffect(t: Tree, i: Cid, r: Ref)
    requires At(t, i)
    ensures var t' := RemoveUp(t, i, r);
            && t' == t.(chans := t'.chans) && |t'.chans| == |t.chans|
            && forall j :: 0 <= j < |t.chans| ==>
                 t'.chans[j] == if Under(t.parents, j, i) then DropFrom(t.chans[j], r) else t.chans[j]
    decreases i
  {
    hide DropFrom;
    if i != 0 {
      var t1 := Put(t, i, DropFrom(t.chans[i], r));
      RemoveUpEffect(t1, t.parents[i], r);
      forall j | 0 <= j < |t.chans| && Under(t.parents, j, t.parents[i]) ensures j != i {
        UnderBound(t.parents, j, t.parents[i]);
      }
    }
  }

  /** A job leaves its ancestors' channels and is put somewhere, or nowhere, in its own. */
  ghost predicate Relocated(t: Tree, i: Cid, r: Ref, t': Tree)
    requires At(t, i)
  {
    && t' == t.(chans := t'.chans) && |t'.chans| == |t.chans|
    && forall j :: 0 <= j < |t.chans| && j != i ==>
         t'.chans[j] == if Under(t.parents, j, i) then DropFrom(t.chans[j], r) else t.chans[j]
  }

  lemma RemoveAboveRelocates(t: Tree, i: Cid, r: Ref, c: Chan)
    requires At(t, i)
    ensures var t' := RemoveAbove(Put(t, i, c), i, r);
            Relocated(t, i, r, t') && t'.chans[i] == c
  {
    hide DropFrom;
    if i != 0 {
      RemoveUpEffect(Put(t, i, c), t.parents[i], r);
      forall j | 0 <= j < |t.chans| && Under(t.parents, j, t.parents[i]) ensures j < i {
        UnderBound(t.parents, j, t.parents[i]);
      }
    } else {
      forall j | 0 <= j < |t.chans| && Under(t.parents, j, 0) ensures j == 0 {
        UnderBound(t.parents, j, 0);
      }
    }
  }

  lemma RemoveUpRelocates(t: Tree, i: Cid, r: Ref)
    requires At(t, i)
    ensures var t' := RemoveUp(t, i, r);
            Relocated(t, i, r, t') && t'.chans[i] == DropFrom(t.chans[i], r)
  {
    RemoveUpEffect(t, i, r);
  }

  lemma DropFromEffect(c: Chan, r: Ref)
    requires c.due.Valid() && c.eta.Valid()
    ensures var c' := DropFrom(c, r);
            && c'.due.Valid() && c'.eta.Valid() && c'.due.known == c.due.known && c'.eta.known == c.eta.known
            && Queued(c') == Queued(c) - {r} && c'.running == c.running - {r} && c'.failed == c.failed - {r}
            && Present(c') == Present(c) - {r}
  {
    AddRemoveAreSetOps(c.due, r);
    AddRemoveAreSetOps(c.eta, r);
  }

  /** The new contents of the own channel: `r` is not running there, the others are where they were. */
  ghost predicate OnlyMoves(c: Chan, c': Chan, r: Ref) {
    && Queued(c') - {r} == Queued(c) - {r}
    && c'.running == c.running - {r}
    && c'.failed - {r} == c.failed - {r}
    && Apart(c')
  }

  lemma RelocatedWf(t: Tree, i: Cid, r: Ref, t': Tree)
    requires Wf(t) && i < |t.chans| && Relocated(t, i, r, t') && ChanOk(t', i)
    ensures Wf(t')
  {
    forall j | 0 <= j < |t'.chans| ensures ChanOk(t', j) {
      assert ChanOk(t, j);
      DropFromEffect(t.chans[j], r);
    }
  }

  lemma RelocatedKeeps(t: Tree, i: Cid, r: Ref, t': Tree)
    requires Inv(t) && r in t.info && t.info[r].chan == i
    requires t.info[r].uuid in t.byUuid && t.byUuid[t.info[r].uuid] == r
    requires Relocated(t, i, r, t') && ChanOk(t', i) && OnlyMoves(t.chans[i], t'.chans[i], r)
    ensures Inv(t')
  {
    RelocatedWf(t, i, r, t');
    forall j | 0 <= j < |t'.chans| ensures Local(t', j) {
      RelocatedLocal(t, i, r, t', j);
    }
  }

  lemma RelocatedLocal(t: Tree, i: Cid, r: Ref, t': Tree, j: Cid)
    requires Inv(t) && r in t.info && t.info[r].chan == i && j < |t.chans|
    requires t.info[r].uuid in t.byUuid && t.byUuid[t.info[r].uuid] == r
    requires Relocated(t, i, r, t') && OnlyMoves(t.chans[i], t'.chans[i], r)
    ensures Local(t', j)
  {
    assert Local(t, j) && ChanOk(t, j);
    DropFromEffect(t.chans[j], r);
    assert r in Present(t.chans[j]) ==> Placed(t, j, r);
    forall x | x in Present(t'.chans[j]) ensures Placed(t', j, x) {
      if x != r {
        assert Placed(t, j, x);
        if t.info[x].chan != j {
          var b := Branch(t.parents, j, t.info[x].chan);
          assert ChanOk(t, b);
          DropFromEffect(t.chans[b], r);
        }
      }
    }
  }

  lemma DoneKeeps(t: Tree, r: Ref)
    requires Inv(t) && r in t.info && t.info[r].uuid in t.byUuid && t.byUuid[t.info[r].uuid] == r
    ensures var t' := RemoveUp(t, t.info[r].chan, r);
            Inv(t') && forall j :: 0 <= j < |t'.chans| ==> r !in Present(t'.chans[j])
  {
    var i := t.info[r].chan;
    var t' := RemoveUp(t, i, r);
    RemoveUpRelocates(t, i, r);
    assert ChanOk(t, i) && Local(t, i);
    DropFromEffect(t.chans[i], r);
    RelocatedKeeps(t, i, r, t');
    forall j | 0 <= j < |t'.chans| ensures r !in Present(t'.chans[j]) {
      assert Local(t, j) && ChanOk(t, j);
      DropFromEffect(t.chans[j], r);
      assert r in Present(t.chans[j]) ==> Placed(t, j, r);
    }
  }

  lemma EnqueueEffect(c: Chan, keys: Keys, r: Ref)
    requires QueueOk(c, keys) && r in keys && (keys[r].eta.Some? ==> keys[r].eta.value > 0.0)
    ensures var c' := Enqueue(c, keys, r);
            QueueOk(c', keys) && Queued(c') == Queued(c) + {r} && c'.eta.known <= c.eta.known + if keys[r].eta.Some? then {r} else {}
  {
    AddRemoveAreSetOps(c.due, r);
    AddRemoveAreSetOps(c.eta, r);
  }

  /** Every eta is a real date, so `if job.eta` means "has an eta". */
  ghost predicate EtaOk(t: Tree) {
    forall r :: r in t.keys && t.keys[r].eta.Some? ==> t.keys[r].eta.value > 0.0
  }

  lemma PendingKeeps(t: Tree, r: Ref)
    requires Inv(t) && EtaOk(t) && r in t.info && t.info[r].uuid in t.byUuid && t.byUuid[t.info[r].uuid] == r
    ensures Inv(SetPending(t, t.info[r].chan, r))
  {
    var i := t.info[r].chan;
    var c := t.chans[i];
    assert ChanOk(t, i) && Local(t, i);
    if !InQueue(c, r) {
      EnqueueEffect(c, t.keys, r);
      var c' := Enqueue(c, t.keys, r).(running := c.running - {r}, failed := c.failed - {r});
      RemoveAboveRelocates(t, i, r, c');
      RelocatedKeeps(t, i, r, SetPending(t, i, r));
    }
  }

  lemma FailedKeeps(t: Tree, r: Ref)
    requires Inv(t) && r in t.info && t.info[r].uuid in t.byUuid && t.byUuid[t.info[r].uuid] == r
    ensures Inv(SetFailed(t, t.info[r].chan, r))
  {
    var i := t.info[r].chan;
    var c := t.chans[i];
    assert ChanOk(t, i) && Local(t, i);
    if r !in c.failed {
      DropFromEffect(c, r);
      var c' := Unqueue(c, r).(running := c.running - {r}, failed := c.failed + {r});
      RemoveAboveRelocates(t, i, r, c');
      RelocatedKeeps(t, i, r, SetFailed(t, i, r));
    }
  }

  // ------------------------------------------------------------------- set_running

  function RunIn(c: Chan, r: Ref): Chan {
    Unqueue(c, r).(running := c.running + {r}, failed := c.failed - {r})
  }

  lemma {:induction false} SetRunningEffect(t: Tree, i: Cid, r: Ref)
    requires At(t, i)
    requires forall j :: 0 <= j < |t.chans| && Under(t.parents, j, i) ==> r !in t.chans[j].running
    ensures var t' := SetRunning(t, i, r);
            && t' == t.(chans := t'.chans) && |t'.chans| == |t.chans|
            && forall j :: 0 <= j < |t.chans| ==>
                 t'.chans[j] == if Under(t.parents, j, i) then RunIn(t.chans[j], r) else t.chans[j]
    decreases i
  {
    assert Under(t.parents, i, i);
    if i != 0 {
      var t1 := Put(t, i, RunIn(t.chans[i], r));
      forall j | 0 <= j < |t.chans| && Under(t.parents, j, t.parents[i])
        ensures j != i && Under(t.parents, j, i)
      {
        UnderBound(t.parents, j, t.parents[i]);
      }
      SetRunningEffect(t1, t.parents[i], r);
    }
  }

  lemma RunInEffect(c: Chan, r: Ref)
    requires c.due.Valid() && c.eta.Valid()
    ensures var c' := RunIn(c, r);
            && c'.due.Valid() && c'.eta.Valid() && c'.due.known == c.due.known && c'.eta.known == c.eta.known
            && Queued(c') == Queued(c) - {r} && c'.running == c.running + {r} && c'.failed == c.failed - {r}
  {
    AddRemoveAreSetOps(c.due, r);
    AddRemoveAreSetOps(c.eta, r);
  }

  /** Not running in its own channel, hence in none of the channels above. */
  lemma {:induction false} NotRunningAbove(t: Tree, r: Ref, j: Cid)
    requires Inv(t) && r in t.info && r !in t.chans[t.info[r].chan].running
    requires j < |t.chans| && Under(t.parents, j, t.info[r].chan)
    ensures r !in t.chans[j].running
    decreases t.info[r].chan - j
  {
    var i := t.info[r].chan;
    UnderBound(t.parents, j, i);
    if j != i {
      var b := Branch(t.parents, j, i);
      assert t.parents[b] == j;
      NotRunningAbove(t, r, b);
      assert Local(t, j);
      assert r in t.chans[j].running ==> Placed(t, j, r);
    }
  }

  lemma RunningKeeps(t: Tree, r: Ref)
    requires Inv(t) && r in t.info && t.info[r].uuid in t.byUuid && t.byUuid[t.info[r].uuid] == r
    ensures Inv(SetRunning(t, t.info[r].chan, r))
  {
    var i := t.info[r].chan;
    if r !in t.chans[i].running {
      forall j | 0 <= j < |t.chans| && Under(t.parents, j, i) ensures r !in t.chans[j].running {
        NotRunningAbove(t, r, j);
      }
      SetRunningEffect(t, i, r);
      var t' := SetRunning(t, i, r);
      forall j | 0 <= j < |t'.chans| ensures ChanOk(t', j) && Local(t', j) {
        RunningLocal(t, i, r, t', j);
      }
    }
  }

  lemma RunningLocal(t: Tree, i: Cid, r: Ref, t': Tree, j: Cid)
    requires Inv(t) && r in t.info && t.info[r].chan == i && j < |t.chans|
    requires t.info[r].uuid in t.byUuid && t.byUuid[t.info[r].uuid] == r
    requires t' == t.(chans := t'.chans) && |t'.chans| == |t.chans|
    requires forall j :: 0 <= j < |t.chans| ==>
               t'.chans[j] == if Under(t.parents, j, i) then RunIn(t.chans[j], r) else t.chans[j]
    ensures ChanOk(t', j) && Local(t', j)
  {
    assert Local(t, j) && ChanOk(t, j);
    RunInEffect(t.chans[j], r);
    forall x | x in Present(t'.chans[j]) ensures Placed(t', j, x) {
      if x != r { assert Placed(t, j, x); }
      if x == r && j != i && x in Present(t.chans[j]) { assert Placed(t, j, x); }
      if t.info[x].chan != j {
        var b := Branch(t.parents, j, t.info[x].chan);
        assert ChanOk(t, b);
        RunInEffect(t.chans[b], r);
      }
    }
  }
}
