/**
 Capacity and throttle over whole passes and whole runs.
 */
module SchedulerLimits {
  import opened Options
  import opened JobQueue
  import opened ChannelTree
  import opened ChannelDrain
  import opened Traversal
  import opened Frontier
  import opened SchedulerRuns

  // ------------------------------------------------------------------- one whole pass

  /** From `t` to `t'` channel `k` was not taken above its capacity, and if it was already at
      or above it, nothing entered it and it yielded nothing. */
  ghost predicate Respects(t: Tree, t': Tree, k: Cid) {
    && k < |t.chans| && k < |t'.chans| && t.log <= t'.log
    && t'.chans[k].capacity == t.chans[k].capacity
    && (Limited(t.chans[k]) ==>
          var c, c', n := t.chans[k], t'.chans[k], t.chans[k].capacity.value;
          && (|c.running| <= n ==> |c'.running| <= n)
          && (|c.running| >= n ==>
                && c'.running == c.running
                && forall a :: |t.log| <= a < |t'.log| ==> t'.log[a].chan != k))
  }

  lemma RespectsThen(t: Tree, t1: Tree, t2: Tree, k: Cid)
    requires Respects(t, t1, k) && Respects(t1, t2, k)
    ensures Respects(t, t2, k)
  {
    forall a | |t.log| <= a < |t1.log| ensures t2.log[a] == t1.log[a] {}
  }

  lemma DrainAtRespects(t: Tree, i: Cid, now: Time, k: Cid)
    requires At(t, i) && k < |t.chans|
    ensures Respects(t, DrainAt(t, i, now).0, k)
  {
    hide Drain;
    var (c', keys', ys) := Drain(t.chans[i], t.keys, now);
    CapacityKept(t.chans[i], t.keys, now);
    if Limited(t.chans[i]) { DrainWithinCapacity(t.chans[i], t.keys, now); }
    if i == k && ys == [] { assert LogOf(i, now, ys) == []; }
  }

  lemma {:induction false} LoopCapacityKept(c: Chan, keys: Keys, now: Time)
    ensures DrainLoop(c, keys, now).0.capacity == c.capacity
    decreases |c.due.known| + |c.eta.known|
  {
    hide PopJob;
    if HasCapacity(c) {
      var (c1, keys1, o) := PopJob(c, keys, now);
      if o.Some? && c.throttle == 0 { LoopCapacityKept(c1.(running := c1.running + {o.value}), keys1, now); }
    }
  }

  lemma CapacityKept(c: Chan, keys: Keys, now: Time)
    ensures Drain(c, keys, now).0.capacity == c.capacity
  {
    hide DrainLoop;
    LoopCapacityKept(c, keys, now);
    LoopCapacityKept(c.(pause := 0.0), keys, now);
  }

  lemma EnqueueAllRespects(t: Tree, i: Cid, ys: seq<Ref>, k: Cid)
    requires At(t, i) && k < |t.chans|
    ensures Respects(t, EnqueueAll(t, i, ys), k)
  {
    hide EnqueueAll;
    EnqueueAllFrame(t, i, ys);
    assert SameConfig(t.chans[k], EnqueueAll(t, i, ys).chans[k]);
  }

  lemma PullUpRespects(t: Tree, i: Cid, now: Time, k: Cid)
    requires At(t, i) && i > 0 && k < |t.chans|
    ensures Respects(t, PullUp(t, i, now), k)
  {
    hide DrainAt, EnqueueAll, Respects;
    var (t1, ys) := DrainAt(t, i, now);
    DrainAtRespects(t, i, now, k);
    EnqueueAllRespects(t1, t.parents[i], ys, k);
    RespectsThen(t, t1, PullUp(t, i, now), k);
  }

  lemma {:induction false} SweepRespects(t: Tree, ks: seq<Cid>, now: Time, k: Cid)
    requires Sized(t) && Visits(|t.chans|, ks) && k < |t.chans|
    ensures Respects(t, Sweep(t, ks, now), k)
    decreases |ks|
  {
    hide PullUp, Limited;
    if ks != [] {
      PullUpRespects(t, ks[0], now, k);
      SweepRespects(PullUp(t, ks[0], now), ks[1..], now, k);
      RespectsThen(t, PullUp(t, ks[0], now), Sweep(t, ks, now), k);
    }
  }

  /** A pass never takes any channel above its capacity, and a full channel yields nothing. */
  lemma PassRespectsCapacity(t: Tree, now: Time, k: Cid)
    requires Sized(t) && k < |t.chans|
    ensures Respects(t, Pass(t, 0, now).0, k)
  {
    hide Sweep, DrainAt, Pass, Respects;
    var ks := Order(t.parents, 0);
    SweepRespects(t, ks, now, k);
    DrainAtRespects(Sweep(t, ks, now), 0, now, k);
    PassIsSweep(t, 0, now);
    RespectsThen(t, Sweep(t, ks, now), Pass(t, 0, now).0, k);
  }

  // -------------------------------------------------------------- capacity over whole runs

  ghost predicate WithinCapacity(t: Tree) {
    forall k :: 0 <= k < |t.chans| && Limited(t.chans[k]) ==> |t.chans[k].running| <= t.chans[k].capacity.value
  }

  /** A notification of a running job concerns a job the root has handed out, in its own channel. */
  predicate Solicited(t: Tree, ev: Event) {
    ev.Notified? && (ev.row.state.Enqueued? || ev.row.state.Started?) ==>
      && ev.row.uuid in t.byUuid && |t.chans| > 0
      && var r := t.byUuid[ev.row.uuid];
         r in t.info && t.info[r].chan == ev.row.chan && r in t.chans[0].running
  }

  /** No channel of `t'` runs more jobs than in `t`. */
  ghost predicate NoMoreRunning(t: Tree, t': Tree) {
    && |t'.chans| == |t.chans|
    && forall k :: 0 <= k < |t.chans| ==>
         t'.chans[k].capacity == t.chans[k].capacity && |t'.chans[k].running| <= |t.chans[k].running|
  }

  lemma NoMoreKeeps(t: Tree, t': Tree)
    requires NoMoreRunning(t, t') && WithinCapacity(t)
    ensures WithinCapacity(t')
  {
  }

  lemma RelocatedNoMore(t: Tree, i: Cid, r: Ref, t': Tree)
    requires At(t, i) && Relocated(t, i, r, t')
    requires t'.chans[i].running == t.chans[i].running - {r} && t'.chans[i].capacity == t.chans[i].capacity
    ensures NoMoreRunning(t, t')
  {
    forall k | 0 <= k < |t.chans| ensures |t'.chans[k].running| <= |t.chans[k].running| {
      SubsetSize(t'.chans[k].running, t.chans[k].running);
    }
  }

  lemma PathOpsNoMore(t: Tree, i: Cid, r: Ref)
    requires At(t, i)
    ensures NoMoreRunning(t, RemoveUp(t, i, r)) && NoMoreRunning(t, SetPending(t, i, r)) && NoMoreRunning(t, SetFailed(t, i, r))
  {
    hide RemoveUp, RemoveAbove;
    var c := t.chans[i];
    RemoveUpRelocates(t, i, r);
    RelocatedNoMore(t, i, r, RemoveUp(t, i, r));
    var c1 := Enqueue(c, t.keys, r).(running := c.running - {r}, failed := c.failed - {r});
    RemoveAboveRelocates(t, i, r, c1);
    if !InQueue(c, r) { RelocatedNoMore(t, i, r, SetPending(t, i, r)); }
    var c2 := Unqueue(c, r).(running := c.running - {r}, failed := c.failed + {r});
    RemoveAboveRelocates(t, i, r, c2);
    if r !in c.failed { RelocatedNoMore(t, i, r, SetFailed(t, i, r)); }
  }

  lemma RemoveJobNoMore(t: Tree, u: Uuid)
    requires Sized(t)
    ensures NoMoreRunning(t, RemoveJob(t, u))
  {
    hide RemoveUp;
    if u in t.byUuid && t.byUuid[u] in t.info && t.info[t.byUuid[u]].chan < |t.chans| {
      PathOpsNoMore(t, t.info[t.byUuid[u]].chan, t.byUuid[u]);
    }
  }

  lemma {:induction false} RemoveDbNoMore(t: Tree, db: Db, todo: set<Uuid>)
    requires Sized(t)
    ensures NoMoreRunning(t, RemoveDb(t, db, todo))
    decreases |todo|
  {
    hide RemoveJob;
    if todo != {} {
      var u := Min(todo, map[]);
      RemoveJobNoMore(t, u);
      var hit := u in t.byUuid && t.byUuid[u] in t.info && t.info[t.byUuid[u]].db == db;
      RemoveDbNoMore(if hit then RemoveJob(t, u) else t, db, todo - {u});
    }
  }

  /** A job running in the root runs in every channel of its path. */
  lemma {:induction false} RunsAllTheWay(t: Tree, r: Ref, j: Cid)
    requires Inv(t) && r in t.info && r in t.chans[0].running
    requires j < |t.chans| && Under(t.parents, j, t.info[r].chan)
    ensures r in t.chans[j].running
    decreases j
  {
    if j != 0 {
      var p := t.parents[j];
      UnderChild(t.parents, p, j, t.info[r].chan);
      RunsAllTheWay(t, r, p);
      assert Local(t, p) && Placed(t, p, r);
    }
  }

  /** The object known for a uuid, if any. */
  function Known(t: Tree, uuid: Uuid): set<Ref> { if uuid in t.byUuid then {t.byUuid[uuid]} else {} }

  /** The known object stands for the row as it is and already runs in its channel. */
  predicate RunsAlready(t: Tree, row: Row) {
    && row.uuid in t.byUuid && row.chan < |t.chans|
    && !Reschedules(t, t.byUuid[row.uuid], row) && t.byUuid[row.uuid] in t.chans[row.chan].running
  }

  /** Channel `j`, on the path of the row's channel, is full without the object known for it. */
  predicate FullFor(t: Tree, row: Row, j: Cid) {
    && j < |t.chans| == |t.parents| && row.chan < |t.parents| && Shape(t.parents) && Under(t.parents, j, row.chan)
    && Limited(t.chans[j]) && |t.chans[j].running - Known(t, row.uuid)| >= t.chans[j].capacity.value
  }

  /** A row reports a job as running that does not run yet, and a channel on its path is full. */
  ghost predicate Overfills(t: Tree, ev: Event) {
    && ev.Notified? && (ev.row.state.Enqueued? || ev.row.state.Started?) && Consistent(t, ev.row) && !RunsAlready(t, ev.row)
    && exists j :: FullFor(t, ev.row, j)
  }

  /** Before the job is marked as running: an object known before is gone or stays as it is. */
  lemma RefreshedRuns(t: Tree, row: Row, newRef: Ref, j: Cid)
    requires Inv(t) && Sized(t) && Allowed(t, Notified(row, newRef)) && Consistent(t, row) && !RunsAlready(t, row) && j < |t.chans|
    requires Under(t.parents, j, row.chan)
    ensures var (t1, r) := Refreshed(t, row, newRef);
            && t1.chans[j].capacity == t.chans[j].capacity
            && r !in t1.chans[j].running && t1.chans[j].running == t.chans[j].running - Known(t, row.uuid)
  {
    assert ChanOk(t, j) && Local(t, j);
    if row.uuid in t.byUuid {
      var r := t.byUuid[row.uuid];
      assert r in t.info && t.info[r].chan < |t.chans|;
      if Reschedules(t, r, row) {
        assert r in t.chans[j].running ==> Placed(t, j, r);
        hide Inv;
        RemoveUpEffect(t, t.info[r].chan, r);
      } else {
        NotRunningAbove(t, r, j);
      }
    }
  }

  lemma RefreshedElsewhere(t: Tree, row: Row, newRef: Ref, j: Cid)
    requires Sized(t) && Consistent(t, row) && j < |t.chans|
    ensures var t1 := Refreshed(t, row, newRef).0; t1.chans[j].capacity == t.chans[j].capacity && t1.chans[j].running <= t.chans[j].running
  {
    if row.uuid in t.byUuid && t.info[t.byUuid[row.uuid]].chan < |t.chans| {
      RemoveUpEffect(t, t.info[t.byUuid[row.uuid]].chan, t.byUuid[row.uuid]);
    }
  }

  /** How many jobs each channel runs once a job is reported as running. */
  lemma ReportedRuns(t: Tree, row: Row, newRef: Ref, j: Cid)
    requires Good(t) && Sized(t) && Allowed(t, Notified(row, newRef)) && Consistent(t, row) && !RunsAlready(t, row) && j < |t.chans|
    requires row.state.Enqueued? || row.state.Started?
    ensures var c, c' := t.chans[j], Notify(t, row, newRef).chans[j];
            && c'.capacity == c.capacity
            && (Under(t.parents, j, row.chan) ==> |c'.running| == |c.running - Known(t, row.uuid)| + 1)
            && (!Under(t.parents, j, row.chan) ==> c'.running <= c.running)
  {
    var (t1, r) := Refreshed(t, row, newRef);
    RefreshedElsewhere(t, row, newRef, j);
    forall k | 0 <= k < |t.chans| && Under(t.parents, k, row.chan) ensures r !in t1.chans[k].running {
      RefreshedRuns(t, row, newRef, k);
    }
    if Under(t.parents, j, row.chan) { RefreshedRuns(t, row, newRef, j); }
    assert Notify(t, row, newRef) == SetRunning(t1, row.chan, r);
    hide Good, Refreshed, SetRunning, RunsAlready, Known, Notify, Allowed, Consistent;
    MarkedRuns(t1, row.chan, r, j);
  }

  lemma MarkedRuns(t: Tree, i: Cid, r: Ref, j: Cid)
    requires At(t, i) && j < |t.chans| && forall k :: 0 <= k < |t.chans| && Under(t.parents, k, i) ==> r !in t.chans[k].running
    ensures var c, c' := t.chans[j], SetRunning(t, i, r).chans[j];
            && c'.capacity == c.capacity
            && (Under(t.parents, j, i) ==> |c'.running| == |c.running| + 1)
            && (!Under(t.parents, j, i) ==> c' == c)
  {
    SetRunningEffect(t, i, r);
  }

  lemma ReportedExactly(t: Tree, row: Row, newRef: Ref)
    requires Good(t) && Sized(t) && WithinCapacity(t) && Allowed(t, Notified(row, newRef)) && Consistent(t, row)
    requires row.state.Enqueued? || row.state.Started?
    ensures WithinCapacity(Notify(t, row, newRef)) <==> !Overfills(t, Notified(row, newRef))
  {
    var t' := Notify(t, row, newRef);
    if RunsAlready(t, row) {
      AlreadyRunning(t, row.chan, t.byUuid[row.uuid]);
    } else {
      forall j | 0 <= j < |t.chans|
        ensures t'.chans[j].capacity == t.chans[j].capacity
        ensures Under(t.parents, j, row.chan) ==> |t'.chans[j].running| == |t.chans[j].running - Known(t, row.uuid)| + 1
        ensures !Under(t.parents, j, row.chan) ==> |t'.chans[j].running| <= |t.chans[j].running|
      {
        ReportedRuns(t, row, newRef, j);
        if !Under(t.parents, j, row.chan) { SubsetSize(t'.chans[j].running, t.chans[j].running); }
      }
      hide Good, Notify, Known, Consistent, RunsAlready;
      ReportedCounts(t, t', row);
    }
  }

  lemma ReportedCounts(t: Tree, t': Tree, row: Row)
    requires Sized(t) && WithinCapacity(t) && |t'.chans| == |t.chans| && row.chan < |t.chans|
    requires forall j :: 0 <= j < |t.chans| ==>
               && t'.chans[j].capacity == t.chans[j].capacity
               && (Under(t.parents, j, row.chan) ==> |t'.chans[j].running| == |t.chans[j].running - Known(t, row.uuid)| + 1)
               && (!Under(t.parents, j, row.chan) ==> |t'.chans[j].running| <= |t.chans[j].running|)
    ensures WithinCapacity(t') <==> !exists j :: FullFor(t, row, j)
  {
    forall j | 0 <= j < |t.chans| && Limited(t.chans[j])
      ensures |t'.chans[j].running| <= t.chans[j].capacity.value <==> !FullFor(t, row, j) {}
  }

  lemma AlreadyRunning(t: Tree, i: Cid, r: Ref)
    requires At(t, i) && Under(t.parents, i, i) && r in t.chans[i].running
    ensures SetRunning(t, i, r) == t
  {
  }

  /** A job handed out earlier may be replaced by a new object, but never counted twice. */
  lemma SolicitedFits(t: Tree, ev: Event)
    requires Good(t) && Sized(t) && WithinCapacity(t) && Allowed(t, ev) && Solicited(t, ev)
    ensures !Overfills(t, ev)
  {
    if Overfills(t, ev) {
      var j :| FullFor(t, ev.row, j);
      RunsAllTheWay(t, t.byUuid[ev.row.uuid], j);
    }
  }

  lemma NotifyExactly(t: Tree, row: Row, newRef: Ref)
    requires Good(t) && Sized(t) && WithinCapacity(t) && Allowed(t, Notified(row, newRef))
    ensures WithinCapacity(Notify(t, row, newRef)) <==> !Overfills(t, Notified(row, newRef))
  {
    hide Good, RemoveUp, SetPending, SetFailed, SetRunning, RemoveJob, WithinCapacity, FullFor, RunsAlready;
    if Consistent(t, row) {
      if row.state.Enqueued? || row.state.Started? {
        ReportedExactly(t, row, newRef);
      } else {
        var (t1, r) := Refreshed(t, row, newRef);
        RemoveJobNoMore(t, row.uuid);
        NoMoreKeeps(t, RemoveJob(t, row.uuid));
        assert WithinCapacity(t1) by { CreateWithin(t, row, newRef); CreateWithin(RemoveJob(t, row.uuid), row, newRef); }
        PathOpsNoMore(t1, row.chan, r);
        if !row.state.WaitDependencies? { NoMoreKeeps(t1, Notify(t, row, newRef)); }
      }
    }
  }

  lemma CreateWithin(t: Tree, row: Row, r: Ref)
    requires WithinCapacity(t)
    ensures WithinCapacity(Create(t, row, r))
  {
  }

  /** From a state in which no channel is overfull, exactly the steps that overfill one lead to
      a state in which one is. */
  lemma OverfullExactlyWhen(t: Tree, ev: Event)
    requires Good(t) && WithinCapacity(t) && Allowed(t, ev)
    ensures Sized(t) && (WithinCapacity(Step(t, ev)) <==> !Overfills(t, ev))
  {
    assert Sized(t) by { InvSized(t); }
    hide Good, Notify, RemoveJob, RemoveDb, Pass, Limited;
    match ev
    case Notified(row, newRef) => NotifyExactly(t, row, newRef);
    case Removed(uuid) => RemoveJobNoMore(t, uuid);
    case RemovedDb(db) => RemoveDbNoMore(t, db, t.byUuid.Keys);
    case Passed(now) =>
      PassOutline(t, now);
      forall k | 0 <= k < |t.chans| ensures Respects(t, Pass(t, 0, now).0, k) { PassRespectsCapacity(t, now, k); }
      PassWithin(t, Pass(t, 0, now).0);
    case NewChannel(parent, capacity, throttle, sequential) => NewWithin(t, parent, capacity, throttle, sequential);
    case Collected(uuid) =>
  }

  lemma PassOutline(t: Tree, now: Time)
    requires Sized(t)
    ensures |Pass(t, 0, now).0.chans| == |t.chans|
  {
  }

  lemma NewWithin(t: Tree, p: Cid, capacity: Option<int>, throttle: int, sequential: bool)
    requires At(t, p) && WithinCapacity(t)
    ensures WithinCapacity(AddChannel(t, p, capacity, throttle, sequential))
  {
  }

  lemma PassWithin(t: Tree, t': Tree)
    requires WithinCapacity(t) && |t'.chans| == |t.chans|
    requires forall k :: 0 <= k < |t.chans| ==> Respects(t, t', k)
    ensures WithinCapacity(t')
  {
    forall k | 0 <= k < |t'.chans| && Limited(t'.chans[k]) ensures |t'.chans[k].running| <= t'.chans[k].capacity.value {
      assert Respects(t, t', k);
    }
  }

  ghost predicate NoneOverfills(t: Tree, evs: seq<Event>)
    requires Sized(t) && AllAllowed(t, evs)
    decreases |evs|
  {
    evs != [] ==> !Overfills(t, evs[0]) && NoneOverfills(Step(t, evs[0]), evs[1..])
  }

  ghost predicate WithinThroughout(t: Tree, evs: seq<Event>)
    requires Sized(t) && AllAllowed(t, evs)
    decreases |evs|
  {
    WithinCapacity(t) && (evs != [] ==> WithinThroughout(Step(t, evs[0]), evs[1..]))
  }

  /** No limited channel is overfull in any state of a run exactly when none of its steps overfills one. */
  lemma {:induction false} RunWithinExactlyWhen(t: Tree, evs: seq<Event>)
    requires Good(t) && Sized(t) && WithinCapacity(t) && AllAllowed(t, evs)
    ensures WithinThroughout(t, evs) <==> NoneOverfills(t, evs)
    decreases |evs|
  {
    hide Good, Step, Allowed, WithinCapacity, Overfills;
    if evs != [] {
      StepKeepsGood(t, evs[0]);
      OverfullExactlyWhen(t, evs[0]);
      if WithinCapacity(Step(t, evs[0])) { RunWithinExactlyWhen(Step(t, evs[0]), evs[1..]); }
    }
  }

  ghost predicate AllSolicited(t: Tree, evs: seq<Event>)
    requires Sized(t) && AllAllowed(t, evs)
    decreases |evs|
  {
    evs != [] ==> Solicited(t, evs[0]) && AllSolicited(Step(t, evs[0]), evs[1..])
  }

  /** In particular, as long as only jobs handed out are reported as running. */
  lemma {:induction false} RunWithinCapacity(t: Tree, evs: seq<Event>)
    requires Good(t) && Sized(t) && WithinCapacity(t) && AllAllowed(t, evs) && AllSolicited(t, evs)
    ensures WithinThroughout(t, evs) && WithinCapacity(Run(t, evs))
    decreases |evs|
  {
    hide Good, Step, Allowed, WithinCapacity, Solicited, Overfills;
    if evs != [] {
      SolicitedFits(t, evs[0]);
      StepKeepsGood(t, evs[0]);
      OverfullExactlyWhen(t, evs[0]);
      RunWithinCapacity(Step(t, evs[0]), evs[1..]);
    }
  }

  /** `set_running` bypasses capacity on purpose: a job the runner never handed out can overfill a channel. */
  lemma UnsolicitedOverfills()
    ensures exists evs: seq<Event> :: var t := Fresh(Some(1), 0, false);
              AllAllowed(t, evs) && !WithinCapacity(Run(t, evs))
  {
    var t := Fresh(Some(1), 0, false);
    var row := (u: Uuid) => Row(0, 0, u, Rank(0, 0, u), None, Started);
    var e0, e1 := Notified(row(0), 0), Notified(row(1), 1);
    var t1 := Step(t, e0);
    assert t1.chans[0].running == {0} && t1.info.Keys == {0} && t1.byUuid == map[0 := 0];
    var t2 := Step(t1, e1);
    assert t2.chans[0].running == {0, 1};
    assert [e0, e1][1..] == [e1] && [e1][1..] == [];
    assert AllAllowed(t2, []) && AllAllowed(t1, [e1]) && AllAllowed(t, [e0, e1]);
    assert Run(t2, []) == t2 && Run(t1, [e1]) == t2 && Run(t, [e0, e1]) == t2;
    assert |t2.chans[0].running| == 2 && Limited(t2.chans[0]);
  }

  // ---------------------------------------------------------------- throttle over whole runs

  /** Two jobs handed over by the same throttled channel are at least `throttle` seconds apart. */
  ghost predicate Spaced(t: Tree) {
    forall a, b :: 0 <= a < b < |t.log| && t.log[a].chan == t.log[b].chan && t.log[a].chan < |t.chans| ==>
      var n := t.chans[t.log[a].chan].throttle;
      n != 0 ==> t.log[b].time - t.log[a].time >= n as real
  }

  /** Since its last job a throttled channel is either paused long enough, or enough time has gone by. */
  ghost predicate Rested(t: Tree, clock: Time, y: Yield) {
    && y.chan < |t.chans| && y.time > 0.0
    && var c := t.chans[y.chan];
    c.throttle != 0 ==>
      || c.pause >= y.time + c.throttle as real
      || (c.pause == 0.0 && clock >= y.time + c.throttle as real)
  }

  ghost predicate Paced(t: Tree, clock: Time) {
    Spaced(t) && forall a :: 0 <= a < |t.log| ==> Rested(t, clock, t.log[a])
  }

  lemma PacedLater(t: Tree, clock: Time, now: Time)
    requires Paced(t, clock) && clock <= now
    ensures Paced(t, now)
  {
    forall a | 0 <= a < |t.log| ensures Rested(t, now, t.log[a]) { assert Rested(t, clock, t.log[a]); }
  }

  lemma OutlinePaced(t: Tree, t': Tree, clock: Time)
    requires Paced(t, clock) && t'.log == t.log && |t'.chans| >= |t.chans|
    requires forall k :: 0 <= k < |t.chans| ==> SameConfig(t.chans[k], t'.chans[k])
    ensures Paced(t', clock)
  {
    forall a | 0 <= a < |t'.log| ensures Rested(t', clock, t'.log[a]) {
      assert Rested(t, clock, t.log[a]);
      assert SameConfig(t.chans[t.log[a].chan], t'.chans[t.log[a].chan]);
    }
    forall a, b | 0 <= a < b < |t'.log| && t'.log[a].chan == t'.log[b].chan && t'.log[a].chan < |t'.chans|
      && t'.chans[t'.log[a].chan].throttle != 0
      ensures t'.log[b].time - t'.log[a].time >= t'.chans[t'.log[a].chan].throttle as real
    {
      assert Rested(t, clock, t.log[a]);
      assert SameConfig(t.chans[t.log[a].chan], t'.chans[t.log[a].chan]);
    }
  }

  lemma DrainAtPaced(t: Tree, i: Cid, now: Time)
    requires At(t, i) && Paced(t, now) && PauseInv(t) && now > 0.0
    ensures Paced(DrainAt(t, i, now).0, now)
  {
    hide Drain;
    var c := t.chans[i];
    var (c', keys', ys) := Drain(c, t.keys, now);
    var t' := DrainAt(t, i, now).0;
    DrainPause(c, t.keys, now);
    assert PauseOk(c);
    DrainedRested(t, t', i, now, ys);
    DrainedSpaced(t, t', i, now, ys);
  }

  lemma DrainedRested(t: Tree, t': Tree, i: Cid, now: Time, ys: seq<Ref>)
    requires At(t, i) && now > 0.0 && Paced(t, now) && PauseOk(t.chans[i]) && |t'.chans| == |t.chans|
    requires t'.chans == t.chans[i := t'.chans[i]] && t'.log == t.log + LogOf(i, now, ys)
    requires var c, c' := t.chans[i], t'.chans[i];
             && c'.throttle == c.throttle
             && (c.throttle != 0 && ys == [] ==> c'.pause == c.pause || (c'.pause == 0.0 && now >= c.pause))
             && (c.throttle != 0 && ys != [] ==> c'.pause == now + c.throttle as real && (c.pause == 0.0 || now >= c.pause))
    ensures forall a :: 0 <= a < |t'.log| ==> Rested(t', now, t'.log[a])
  {
    forall a | 0 <= a < |t'.log| ensures Rested(t', now, t'.log[a]) {
      if a < |t.log| { assert t'.log[a] == t.log[a] && Rested(t, now, t.log[a]); }
      else { assert t'.log[a] == Yield(i, now, ys[a - |t.log|]); }
    }
  }

  lemma DrainedSpaced(t: Tree, t': Tree, i: Cid, now: Time, ys: seq<Ref>)
    requires At(t, i) && now > 0.0 && Paced(t, now) && PauseOk(t.chans[i]) && |t'.chans| == |t.chans|
    requires t'.chans == t.chans[i := t'.chans[i]] && t'.log == t.log + LogOf(i, now, ys)
    requires var c, c' := t.chans[i], t'.chans[i];
             && c'.throttle == c.throttle && (c.throttle != 0 ==> |ys| <= 1)
             && (c.throttle != 0 && ys != [] ==> c.pause == 0.0 || now >= c.pause)
    ensures Spaced(t')
  {
    forall a, b | 0 <= a < b < |t'.log| && t'.log[a].chan == t'.log[b].chan && t'.log[a].chan < |t'.chans|
      && t'.chans[t'.log[a].chan].throttle != 0
      ensures t'.log[b].time - t'.log[a].time >= t'.chans[t'.log[a].chan].throttle as real
    {
      if b < |t.log| {
        assert t'.log[a] == t.log[a] && t'.log[b] == t.log[b];
      } else {
        assert t'.log[b] == Yield(i, now, ys[b - |t.log|]);
        assert a < |t.log|;
        assert t'.log[a] == t.log[a] && Rested(t, now, t.log[a]);
      }
    }
  }

  lemma PullUpPaced(t: Tree, k: Cid, now: Time)
    requires Good(t) && Paced(t, now) && 0 < k < |t.chans| && now > 0.0
    ensures Sized(t) && Paced(PullUp(t, k, now), now)
  {
    hide Inv, EtaOk, DrainAt, EnqueueAll, Paced;
    InvSized(t);
    DrainAtPaced(t, k, now);
    EnqueueAllFrame(DrainAt(t, k, now).0, t.parents[k], DrainAt(t, k, now).1);
    OutlinePaced(DrainAt(t, k, now).0, PullUp(t, k, now), now);
  }

  lemma {:induction false} SweepPaced(t: Tree, ks: seq<Cid>, now: Time)
    requires Good(t) && Paced(t, now) && Visits(|t.chans|, ks) && now > 0.0 && Sized(t)
    ensures Paced(Sweep(t, ks, now), now)
    decreases |ks|
  {
    hide Good, Paced, PullUp;
    if ks != [] {
      PullUpGood(t, ks[0], now);
      PullUpPaced(t, ks[0], now);
      SweepPaced(PullUp(t, ks[0], now), ks[1..], now);
    }
  }

  lemma PassPaced(t: Tree, now: Time)
    requires Good(t) && Paced(t, now) && now > 0.0
    ensures Sized(t) && Paced(Pass(t, 0, now).0, now)
  {
    hide Inv, EtaOk, PauseInv, Sweep, DrainAt, Pass, Paced;
    InvSized(t);
    var ks := Order(t.parents, 0);
    SweepPaced(t, ks, now);
    SweepGood(t, ks, now);
    DrainAtPaced(Sweep(t, ks, now), 0, now);
    PassIsSweep(t, 0, now);
  }

  lemma NotifySameLog(t: Tree, row: Row, newRef: Ref)
    requires At(t, row.chan)
    ensures var t' := Notify(t, row, newRef);
            t'.log == t.log && |t'.chans| == |t.chans|
            && forall k :: 0 <= k < |t.chans| ==> SameConfig(t.chans[k], t'.chans[k])
  {
    hide RemoveUp, SetPending, SetRunning, SetFailed, RemoveJob, SameConfig;
    OutlineSelf(t);
    if Consistent(t, row) {
      var (t1, r) := Refreshed(t, row, newRef);
      RemoveJobFrame(t, row.uuid);
      PathOpsFrame(t1, row.chan, r);
      var t' := Notify(t, row, newRef);
      forall k | 0 <= k < |t.chans| ensures SameConfig(t.chans[k], t'.chans[k]) {
        ConfigThen(t.chans[k], t1.chans[k], t'.chans[k]);
      }
    }
  }

  lemma ConfigThen(c: Chan, c1: Chan, c2: Chan)
    requires SameConfig(c, c1) && SameConfig(c1, c2)
    ensures SameConfig(c, c2)
  {
  }

  lemma StepPaced(t: Tree, ev: Event, clock: Time)
    requires Good(t) && Paced(t, clock) && Allowed(t, ev) && (ev.Passed? ==> clock <= ev.now)
    ensures Sized(t) && Paced(Step(t, ev), if ev.Passed? then ev.now else clock)
  {
    InvSized(t);
    hide Inv, EtaOk, PauseInv, Notify, RemoveJob, RemoveDb, Pass, Paced;
    match ev
    case Notified(row, newRef) =>
      NotifySameLog(t, row, newRef);
      OutlinePaced(t, Step(t, ev), clock);
    case Removed(uuid) => RemoveJobFrame(t, uuid); OutlinePaced(t, Step(t, ev), clock);
    case RemovedDb(db) => RemoveDbKeeps(t, db, t.byUuid.Keys); OutlinePaced(t, Step(t, ev), clock);
    case Passed(now) => PacedLater(t, clock, now); PassPaced(t, now);
    case NewChannel(parent, capacity, throttle, sequential) => OutlinePaced(t, Step(t, ev), clock);
    case Collected(uuid) => OutlinePaced(t, Step(t, ev), clock);
  }

  /** The clock of the passes never runs backwards. */
  predicate Ordered(evs: seq<Event>, clock: Time)
    decreases |evs|
  {
    evs != [] ==>
      && (evs[0].Passed? ==> clock <= evs[0].now)
      && Ordered(evs[1..], if evs[0].Passed? then evs[0].now else clock)
  }

  /**
   Over every run whose passes happen at nondecreasing times, any two jobs a throttled channel
   hands over are at least `throttle` seconds apart; in particular one pass yields at most one.
   */
  lemma {:induction false} RunSpaced(t: Tree, evs: seq<Event>, clock: Time)
    requires Good(t) && Sized(t) && Paced(t, clock) && AllAllowed(t, evs) && Ordered(evs, clock)
    ensures Spaced(Run(t, evs))
    decreases |evs|
  {
    hide Good, Step, Allowed, Spaced, Rested;
    if evs != [] {
      StepKeepsGood(t, evs[0]);
      StepPaced(t, evs[0], clock);
      RunSpaced(Step(t, evs[0]), evs[1..], if evs[0].Passed? then evs[0].now else clock);
    }
  }
}
