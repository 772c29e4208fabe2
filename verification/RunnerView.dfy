/**
 What the runner of the protocol holds as pending is what the channel tree holds queued: a
 notification changes it as the protocol lets it, and a pass takes out exactly what it yields.
 */
module RunnerView {
  import opened JobQueue
  import opened ChannelTree
  import opened ChannelDrain
  import opened Traversal
  import opened Frontier
  import opened SchedulerRuns
  import opened PassYield
  import JobProtocol

  /** All jobs queued in some channel. */
  function AllQueued(t: Tree): set<Ref> { set k, r | 0 <= k < |t.chans| && r in Queued(t.chans[k]) :: r }

  /** The uuids of the live jobs queued in some channel. */
  function Held(t: Tree): set<Uuid> { set u | u in t.byUuid && t.byUuid[u] in AllQueued(t) }

  function StateOf(st: JobState): JobProtocol.State {
    match st
    case WaitDependencies => JobProtocol.WaitDependencies
    case Pending => JobProtocol.Pending
    case Enqueued => JobProtocol.Enqueued
    case Started => JobProtocol.Started
    case Done => JobProtocol.Done
    case Cancelled => JobProtocol.Cancelled
    case Failed => JobProtocol.Failed
  }

  /** The live object of its uuid, in its own channel. */
  ghost predicate Live(t: Tree, r: Ref) {
    r in t.info && t.info[r].chan < |t.chans| && t.info[r].uuid in t.byUuid && t.byUuid[t.info[r].uuid] == r
  }

  // -------------------------------------------------------------------- one job at a time

  /** Only `r` may have come into, or gone from, the queues. */
  ghost predicate Others(t: Tree, t': Tree, r: Ref) {
    |t'.chans| == |t.chans| && forall k :: 0 <= k < |t.chans| ==> Queued(t'.chans[k]) - {r} == Queued(t.chans[k]) - {r}
  }

  lemma OthersStay(t: Tree, t': Tree, r: Ref)
    requires Others(t, t', r)
    ensures AllQueued(t') - {r} == AllQueued(t) - {r}
  {
    forall x | x != r ensures x in AllQueued(t') <==> x in AllQueued(t) {
      if x in AllQueued(t) {
        var k :| 0 <= k < |t.chans| && x in Queued(t.chans[k]);
        assert x in Queued(t'.chans[k]) - {r};
      }
      if x in AllQueued(t') {
        var k :| 0 <= k < |t'.chans| && x in Queued(t'.chans[k]);
        assert x in Queued(t.chans[k]) - {r};
      }
    }
  }

  /** If only the live object of `u` moved, only `u` may be held or not held any more. */
  lemma HeldMoves(t: Tree, t': Tree, u: Uuid, r: Ref)
    requires AllQueued(t') - {r} == AllQueued(t) - {r} && t'.byUuid == t.byUuid && u in t.byUuid && t.byUuid[u] == r
    requires forall v :: v in t.byUuid && t.byUuid[v] == r ==> v == u
    ensures Held(t') == if r in AllQueued(t') then Held(t) + {u} else Held(t) - {u}
  {
    forall v | v in t.byUuid && v != u ensures v in Held(t') <==> v in Held(t) {
      assert t.byUuid[v] in AllQueued(t') - {r} <==> t.byUuid[v] in AllQueued(t) - {r};
    }
  }

  lemma OneUuid(t: Tree, r: Ref)
    requires Inv(t) && Live(t, r)
    ensures forall v :: v in t.byUuid && t.byUuid[v] == r ==> v == t.info[r].uuid
  {
  }

  // ---------------------------------------------------------------------- transitions

  lemma RelocatedOthers(t: Tree, i: Cid, r: Ref, t': Tree)
    requires Inv(t) && At(t, i) && Relocated(t, i, r, t') && Queued(t'.chans[i]) - {r} == Queued(t.chans[i]) - {r}
    ensures Others(t, t', r)
  {
    forall k | 0 <= k < |t.chans| ensures Queued(t'.chans[k]) - {r} == Queued(t.chans[k]) - {r} {
      assert ChanOk(t, k);
      DropFromEffect(t.chans[k], r);
    }
  }

  /** Where a job does not run, it is not queued further up. */
  lemma NotQueuedAbove(t: Tree, r: Ref, k: Cid)
    requires Inv(t) && Live(t, r) && k < |t.chans| && k != t.info[r].chan && r !in t.chans[t.info[r].chan].running
    ensures r !in Queued(t.chans[k])
  {
    if r in Queued(t.chans[k]) {
      assert Local(t, k) && Placed(t, k, r);
      var b := Branch(t.parents, k, t.info[r].chan);
      NotRunningAbove(t, r, b);
    }
  }

  lemma DoneHeld(t: Tree, r: Ref)
    requires Inv(t) && Live(t, r)
    ensures Sized(t) && Held(RemoveUp(t, t.info[r].chan, r)) == Held(t) - {t.info[r].uuid}
  {
    var i := t.info[r].chan;
    var t' := RemoveUp(t, i, r);
    InvSized(t);
    DoneKeeps(t, r);
    RemoveUpRelocates(t, i, r);
    assert ChanOk(t, i);
    DropFromEffect(t.chans[i], r);
    RelocatedOthers(t, i, r, t');
    OneUuid(t, r);
    hide Inv, RemoveUp, Queued;
    OthersStay(t, t', r);
    NowhereQueued(t', r);
    HeldMoves(t, t', t.info[r].uuid, r);
  }

  lemma NowhereQueued(t: Tree, r: Ref)
    requires forall k :: 0 <= k < |t.chans| ==> r !in Present(t.chans[k])
    ensures r !in AllQueued(t)
  {
  }

  lemma PendingHeld(t: Tree, r: Ref)
    requires Inv(t) && EtaOk(t) && Live(t, r)
    ensures Sized(t) && Held(SetPending(t, t.info[r].chan, r)) == Held(t) + {t.info[r].uuid}
  {
    var i := t.info[r].chan;
    var c := t.chans[i];
    var t' := SetPending(t, i, r);
    InvSized(t);
    assert ChanOk(t, i);
    AddRemoveAreSetOps(c.due, r);
    AddRemoveAreSetOps(c.eta, r);
    if InQueue(c, r) {
      assert r in Queued(t.chans[i]) && r in AllQueued(t);
    } else {
      EnqueueEffect(c, t.keys, r);
      var c' := Enqueue(c, t.keys, r).(running := c.running - {r}, failed := c.failed - {r});
      RemoveAboveRelocates(t, i, r, c');
      RelocatedOthers(t, i, r, t');
      OneUuid(t, r);
      assert r in Queued(t'.chans[i]) && r in AllQueued(t');
      hide Inv, SetPending, Queued;
      OthersStay(t, t', r);
      HeldMoves(t, t', t.info[r].uuid, r);
    }
  }

  lemma NoneAbove(t: Tree, r: Ref)
    requires Inv(t) && Live(t, r) && r !in t.chans[t.info[r].chan].running && r !in Queued(t.chans[t.info[r].chan])
    ensures r !in AllQueued(t)
  {
    if r in AllQueued(t) {
      var k :| 0 <= k < |t.chans| && r in Queued(t.chans[k]);
      NotQueuedAbove(t, r, k);
    }
  }

  lemma FailedHeld(t: Tree, r: Ref)
    requires Inv(t) && Live(t, r)
    ensures Sized(t) && Held(SetFailed(t, t.info[r].chan, r)) == Held(t) - {t.info[r].uuid}
  {
    var i := t.info[r].chan;
    var c := t.chans[i];
    var t' := SetFailed(t, i, r);
    InvSized(t);
    assert ChanOk(t, i) && Local(t, i);
    if r in c.failed { NoneAbove(t, r); }
    else {
      DropFromEffect(c, r);
      var c' := Unqueue(c, r).(running := c.running - {r}, failed := c.failed + {r});
      RemoveAboveRelocates(t, i, r, c');
      RelocatedOthers(t, i, r, t');
      FailedKeeps(t, r);
      NoneAbove(t', r);
      OneUuid(t, r);
      hide Inv, SetFailed, Queued;
      OthersStay(t, t', r);
      HeldMoves(t, t', t.info[r].uuid, r);
    }
  }

  lemma RunningOthers(t: Tree, r: Ref)
    requires Inv(t) && Live(t, r) && r !in t.chans[t.info[r].chan].running
    ensures Sized(t) && var t' := SetRunning(t, t.info[r].chan, r);
            t' == t.(chans := t'.chans) && Others(t, t', r) && r !in AllQueued(t')
  {
    InvSized(t);
    var i := t.info[r].chan;
    forall j | 0 <= j < |t.chans| && Under(t.parents, j, i) ensures r !in t.chans[j].running { NotRunningAbove(t, r, j); }
    SetRunningEffect(t, i, r);
    var t' := SetRunning(t, i, r);
    forall k | 0 <= k < |t.chans| ensures Queued(t'.chans[k]) == Queued(t.chans[k]) - {r} {
      assert ChanOk(t, k) && Local(t, k);
      RunInEffect(t.chans[k], r);
      assert r in Queued(t.chans[k]) ==> Placed(t, k, r);
    }
  }

  /** A job already running in its own channel is left alone, even if it is queued further up. */
  lemma RunningHeld(t: Tree, r: Ref)
    requires Inv(t) && Live(t, r)
    ensures Sized(t) && Held(SetRunning(t, t.info[r].chan, r)) ==
            if r in t.chans[t.info[r].chan].running then Held(t) else Held(t) - {t.info[r].uuid}
  {
    InvSized(t);
    if r !in t.chans[t.info[r].chan].running {
      RunningOthers(t, r);
      OneUuid(t, r);
      hide Inv, SetRunning, Queued;
      var t' := SetRunning(t, t.info[r].chan, r);
      OthersStay(t, t', r);
      HeldMoves(t, t', t.info[r].uuid, r);
    }
  }

  // --------------------------------------------------------------------- notifications

  lemma NewNotQueued(t: Tree, r: Ref)
    requires Inv(t) && r !in t.info
    ensures r !in AllQueued(t)
  {
    if r in AllQueued(t) { QueuedLive(t, r); }
  }

  lemma RemoveJobHeld(t: Tree, uuid: Uuid)
    requires Inv(t)
    ensures Sized(t) && Held(RemoveJob(t, uuid)) == Held(t) - {uuid}
  {
    InvSized(t);
    if uuid in t.byUuid {
      UuidEntry(t, uuid);
      var r := t.byUuid[uuid];
      DoneHeld(t, r);
      RemoveUpEffect(t, t.info[r].chan, r);
      hide Inv, RemoveUp, Queued;
      var t1 := RemoveUp(t, t.info[r].chan, r);
      assert AllQueued(t1.(byUuid := t.byUuid - {uuid})) == AllQueued(t1);
    }
  }

  lemma CreateHeld(t: Tree, row: Row, newRef: Ref)
    requires Inv(t) && newRef !in t.info && row.uuid !in t.byUuid
    ensures Held(Create(t, row, newRef)) == Held(t)
  {
    NewNotQueued(t, newRef);
    hide Inv, Queued;
    assert AllQueued(Create(t, row, newRef)) == AllQueued(t);
  }

  lemma RefreshedHeld(t: Tree, row: Row, newRef: Ref)
    requires Inv(t) && Sized(t) && Allowed(t, Notified(row, newRef)) && Consistent(t, row)
    ensures var t1 := Refreshed(t, row, newRef).0; Held(t1) == Held(t) || Held(t1) == Held(t) - {row.uuid}
  {
    hide Inv, RemoveJob, Held, Create;
    if row.uuid in t.byUuid {
      RemoveJobHeld(t, row.uuid);
      RemoveJobKeeps(t, row.uuid);
      CreateHeld(RemoveJob(t, row.uuid), row, newRef);
    } else {
      CreateHeld(t, row, newRef);
    }
  }

  /** The transition of `notify`, on the object that stands for the row. */
  function Transition(t: Tree, i: Cid, r: Ref, st: JobState): Tree
    requires At(t, i)
  {
    match st
    case Done => RemoveUp(t, i, r)
    case Cancelled => RemoveUp(t, i, r)
    case Pending => SetPending(t, i, r)
    case Enqueued => SetRunning(t, i, r)
    case Started => SetRunning(t, i, r)
    case Failed => SetFailed(t, i, r)
    case WaitDependencies => t
  }

  lemma NotifyIsTransition(t: Tree, row: Row, newRef: Ref)
    requires At(t, row.chan) && Consistent(t, row)
    ensures var (t1, r) := Refreshed(t, row, newRef); Notify(t, row, newRef) == Transition(t1, row.chan, r, row.state)
  {
    hide Refreshed, RemoveUp, SetPending, SetRunning, SetFailed;
  }

  lemma TransitionHeld(t: Tree, r: Ref, st: JobState) returns (dropped: bool)
    requires Inv(t) && EtaOk(t) && Live(t, r)
    ensures Sized(t) && Held(Transition(t, t.info[r].chan, r, st)) == JobProtocol.Heard(Held(t), t.info[r].uuid, StateOf(st), dropped)
  {
    InvSized(t);
    hide Inv, EtaOk, RemoveUp, SetPending, SetRunning, SetFailed, Held;
    dropped := Held(Transition(t, t.info[r].chan, r, st)) != Held(t);
    match st {
      case Done => DoneHeld(t, r);
      case Cancelled => DoneHeld(t, r);
      case Pending => PendingHeld(t, r);
      case Enqueued => RunningHeld(t, r);
      case Started => RunningHeld(t, r);
      case Failed => FailedHeld(t, r);
      case WaitDependencies =>
    }
  }

  /** A notification changes what is held as the protocol lets it. */
  lemma NotifyHeld(t: Tree, row: Row, newRef: Ref) returns (dropped: bool)
    requires Good(t) && Sized(t) && Allowed(t, Notified(row, newRef)) && Consistent(t, row)
    ensures Held(Notify(t, row, newRef)) == JobProtocol.Heard(Held(t), row.uuid, StateOf(row.state), dropped)
  {
    var (t1, r) := Refreshed(t, row, newRef);
    RefreshedHeld(t, row, newRef);
    RefreshedKeeps(t, row, newRef);
    NotifyIsTransition(t, row, newRef);
    hide Good, Inv, Refreshed, Transition, Notify, Held, Consistent, EtaOk;
    var more := TransitionHeld(t1, r, row.state);
    dropped := more || Held(t1) != Held(t);
  }

  // ------------------------------------------------------------------------------ passes

  /** A job running in a channel runs in all those below on its path. */
  lemma {:induction false} RunsBelow(t: Tree, r: Ref, b: Cid, j: Cid)
    requires Inv(t) && Live(t, r) && b <= j < |t.chans| && r in t.chans[b].running
    requires Under(t.parents, b, j) && Under(t.parents, j, t.info[r].chan)
    ensures r in t.chans[j].running
    decreases j
  {
    if j != b {
      var q := t.parents[j];
      UnderBound(t.parents, b, q);
      UnderChild(t.parents, q, j, t.info[r].chan);
      RunsBelow(t, r, b, q);
      assert Local(t, q) && Placed(t, q, r);
    }
  }

  /** What is queued in the root is queued nowhere else. */
  lemma RootQueuedOnce(t: Tree, r: Ref, j: Cid)
    requires Inv(t) && 0 < j < |t.chans| && r in Queued(t.chans[0])
    ensures r !in Queued(t.chans[j])
  {
    if r in Queued(t.chans[j]) {
      assert Local(t, 0) && Placed(t, 0, r) && Local(t, j) && Placed(t, j, r);
      var i := t.info[r].chan;
      UnderBound(t.parents, j, i);
      var b := Branch(t.parents, 0, i);
      BranchUnder(t.parents, j, i);
      UnderBound(t.parents, b, j);
      RunsBelow(t, r, b, j);
    }
  }

  /** Below the root, a path goes through the branch of the root it belongs to. */
  lemma {:induction false} BranchUnder(parents: seq<Cid>, j: Cid, i: Cid)
    requires Shape(parents) && i < |parents| && 0 < j < |parents| && Under(parents, j, i) && Under(parents, 0, i) && i != 0
    ensures Under(parents, Branch(parents, 0, i), j)
    decreases i
  {
    if j != i { BranchUnder(parents, j, parents[i]); }
  }

  lemma PullUpQueued(t: Tree, k: Cid, now: Time)
    requires Inv(t) && 0 < k < |t.chans|
    ensures Sized(t) && AllQueued(PullUp(t, k, now)) == AllQueued(t)
  {
    InvSized(t);
    var (t1, ys) := DrainAt(t, k, now);
    DrainAtFacts(t, k, now);
    DrainAtKeeps(t, k, now);
    EnqueueAllQueued(t1, k, ys);
    var p := t.parents[k];
    var t2 := PullUp(t, k, now);
    forall j | 0 <= j < |t.chans| && j != p ensures t2.chans[j] == t1.chans[j] { EnqueueElsewhere(t1, p, ys, j); }
    hide Inv, DrainAt, EnqueueAll, Queued;
    MovedUp(t, t1, t2, k, p, ys);
  }

  lemma MovedUp(t: Tree, t1: Tree, t2: Tree, k: Cid, p: Cid, ys: seq<Ref>)
    requires p < k < |t.chans| && |t1.chans| == |t2.chans| == |t.chans|
    requires t1.chans == t.chans[k := t1.chans[k]] && Queued(t1.chans[k]) == Queued(t.chans[k]) - Members(ys) && Members(ys) <= Queued(t.chans[k])
    requires forall j :: 0 <= j < |t.chans| && j != p ==> t2.chans[j] == t1.chans[j]
    requires Queued(t2.chans[p]) == Queued(t1.chans[p]) + Members(ys)
    ensures AllQueued(t2) == AllQueued(t)
  {
    forall r | r in AllQueued(t) ensures r in AllQueued(t2) {
      var j :| 0 <= j < |t.chans| && r in Queued(t.chans[j]);
      if r in Members(ys) { assert r in Queued(t2.chans[p]); } else { assert r in Queued(t2.chans[j]); }
    }
    forall r | r in AllQueued(t2) ensures r in AllQueued(t) {
      var j :| 0 <= j < |t2.chans| && r in Queued(t2.chans[j]);
      if r in Members(ys) { assert r in Queued(t.chans[k]); } else { assert r in Queued(t.chans[j]); }
    }
  }

  lemma {:induction false} SweepQueued(t: Tree, ks: seq<Cid>, now: Time)
    requires Inv(t) && Visits(|t.chans|, ks)
    ensures Sized(t) && AllQueued(Sweep(t, ks, now)) == AllQueued(t) && Sweep(t, ks, now).byUuid == t.byUuid
    ensures Sweep(t, ks, now).info == t.info
    decreases |ks|
  {
    InvSized(t);
    if ks != [] {
      PullUpQueued(t, ks[0], now);
      PullUpKeeps(t, ks[0], now);
      PullUpNames(t, ks[0], now);
      hide Inv, PullUp, AllQueued;
      SweepQueued(PullUp(t, ks[0], now), ks[1..], now);
    }
  }

  lemma PullUpNames(t: Tree, k: Cid, now: Time)
    requires Inv(t) && Sized(t) && 0 < k < |t.chans|
    ensures PullUp(t, k, now).byUuid == t.byUuid && PullUp(t, k, now).info == t.info
  {
    DrainAtFacts(t, k, now);
    EnqueueNames(DrainAt(t, k, now).0, t.parents[k], DrainAt(t, k, now).1);
  }

  lemma {:induction false} EnqueueNames(t: Tree, i: Cid, ys: seq<Ref>)
    requires At(t, i)
    ensures EnqueueAll(t, i, ys).byUuid == t.byUuid && EnqueueAll(t, i, ys).info == t.info
    decreases |ys|
  {
    if ys != [] { EnqueueNames(Put(t, i, Enqueue(t.chans[i], t.keys, ys[0])), i, ys[1..]); }
  }

  lemma RootDrainQueued(t: Tree, now: Time)
    requires Inv(t) && |t.chans| > 0
    ensures Sized(t) && var (t', ys) := DrainAt(t, 0, now);
            AllQueued(t') == AllQueued(t) - Members(ys) && Members(ys) <= AllQueued(t) && t'.byUuid == t.byUuid && t'.info == t.info
  {
    InvSized(t);
    var (t', ys) := DrainAt(t, 0, now);
    DrainAtFacts(t, 0, now);
    forall r, j | r in Members(ys) && 0 < j < |t.chans| ensures r !in Queued(t.chans[j]) { RootQueuedOnce(t, r, j); }
    hide Inv, DrainAt, Queued;
    forall r ensures r in AllQueued(t') <==> r in AllQueued(t) && r !in Members(ys) {
      if r in AllQueued(t) && r !in Members(ys) {
        var j :| 0 <= j < |t.chans| && r in Queued(t.chans[j]);
        assert r in Queued(t'.chans[j]);
      }
      if r in AllQueued(t') {
        var j :| 0 <= j < |t'.chans| && r in Queued(t'.chans[j]);
        assert r in Queued(t.chans[j]);
      }
    }
    forall r | r in Members(ys) ensures r in AllQueued(t) { assert r in Queued(t.chans[0]); }
  }

  /** A pass takes out of what is held exactly the jobs it yields, each of which was held. */
  lemma PassHeld(t: Tree, now: Time)
    requires Good(t)
    ensures Sized(t)
    ensures var (t', ys) := Pass(t, 0, now);
            var us := set r | r in ys && r in t.info :: t.info[r].uuid;
            us <= Held(t) && Held(t') == Held(t) - us && forall r :: r in ys ==> Live(t, r)
  {
    InvSized(t);
    var ks := Order(t.parents, 0);
    var t1 := Sweep(t, ks, now);
    SweepQueued(t, ks, now);
    SweepKeeps(t, ks, now);
    RootDrainQueued(t1, now);
    PassIsSweep(t, 0, now);
    var (t', ys) := Pass(t, 0, now);
    forall r | r in AllQueued(t) ensures Live(t, r) { QueuedLive(t, r); }
    assert forall u :: u in t.byUuid ==> t.byUuid[u] in t.info && t.info[t.byUuid[u]].uuid == u;
    hide Good, Inv, Pass, Sweep, DrainAt, AllQueued;
    assert forall r :: r in ys ==> r in Members(ys) && Live(t, r);
    HeldWithout(t, t', ys);
  }

  lemma QueuedLive(t: Tree, r: Ref)
    requires Inv(t) && r in AllQueued(t)
    ensures Live(t, r)
  {
    var k :| 0 <= k < |t.chans| && r in Queued(t.chans[k]);
    assert Local(t, k) && Placed(t, k, r);
  }

  lemma HeldWithout(t: Tree, t': Tree, ys: seq<Ref>)
    requires AllQueued(t') == AllQueued(t) - Members(ys) && Members(ys) <= AllQueued(t) && t'.byUuid == t.byUuid
    requires forall r :: r in AllQueued(t) ==> Live(t, r)
    requires forall u :: u in t.byUuid ==> t.byUuid[u] in t.info && t.info[t.byUuid[u]].uuid == u
    ensures var us := set r | r in ys && r in t.info :: t.info[r].uuid;
            us <= Held(t) && Held(t') == Held(t) - us
  {
    hide AllQueued;
    var us := set r | r in ys && r in t.info :: t.info[r].uuid;
    forall u | u in us ensures u in Held(t) && u !in Held(t') {
      var r :| r in ys && r in t.info && t.info[r].uuid == u;
      assert r in Members(ys) && Live(t, r);
    }
    forall u | u in Held(t) && u !in us ensures u in Held(t') {
      var r := t.byUuid[u];
      assert Live(t, r) && t.info[r].uuid == u;
    }
  }
}
