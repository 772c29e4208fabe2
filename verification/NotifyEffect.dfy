/**
 What one row of the job table does to the channel tree: which object then stands for the job and
 with which key, where that object sits, and that nothing happens to any other job.
 */
module NotifyEffect {
  import opened JobQueue
  import opened ChannelTree
  import opened ChannelDrain
  import opened Traversal
  import opened Frontier
  import opened SchedulerRuns
  import opened RunnerView

  ghost predicate Nowhere(t: Tree, r: Ref) {
    forall k :: 0 <= k < |t.chans| ==> r !in Queued(t.chans[k]) && r !in t.chans[k].running && r !in t.chans[k].failed
  }

  /** Every job but those of `gone` is where it was. */
  ghost predicate OthersSit(t: Tree, t': Tree, gone: set<Ref>) {
    && |t'.chans| == |t.chans|
    && forall k :: 0 <= k < |t.chans| ==>
         && Queued(t'.chans[k]) - gone == Queued(t.chans[k]) - gone
         && t'.chans[k].running - gone == t.chans[k].running - gone
         && t'.chans[k].failed - gone == t.chans[k].failed - gone
  }

  lemma OthersSitOn(t: Tree, t1: Tree, t2: Tree, a: set<Ref>, b: set<Ref>)
    requires OthersSit(t, t1, a) && OthersSit(t1, t2, b)
    ensures OthersSit(t, t2, a + b)
  {
    forall k | 0 <= k < |t.chans|
      ensures Queued(t2.chans[k]) - (a + b) == Queued(t.chans[k]) - (a + b)
              && t2.chans[k].running - (a + b) == t.chans[k].running - (a + b) && t2.chans[k].failed - (a + b) == t.chans[k].failed - (a + b)
    {
      hide Queued;
      MinusMore(Queued(t2.chans[k]), Queued(t1.chans[k]), Queued(t.chans[k]), a, b);
      MinusMore(t2.chans[k].running, t1.chans[k].running, t.chans[k].running, a, b);
      MinusMore(t2.chans[k].failed, t1.chans[k].failed, t.chans[k].failed, a, b);
    }
  }

  lemma MinusMore(z: set<Ref>, y: set<Ref>, x: set<Ref>, a: set<Ref>, b: set<Ref>)
    requires z - b == y - b && y - a == x - a
    ensures z - (a + b) == x - (a + b)
  {
    forall r | r !in a && r !in b ensures r in z <==> r in x {
      assert r in z - b <==> r in y - b;
      assert r in y - a <==> r in x - a;
    }
  }

  // ------------------------------------------------------------------- the transitions

  lemma RelocatedSit(t: Tree, i: Cid, r: Ref, t': Tree)
    requires Inv(t) && At(t, i) && Relocated(t, i, r, t') && t'.chans[i].running == t.chans[i].running - {r}
    requires Queued(t'.chans[i]) - {r} == Queued(t.chans[i]) - {r} && t'.chans[i].failed - {r} == t.chans[i].failed - {r}
    ensures OthersSit(t, t', {r})
  {
    forall k | 0 <= k < |t.chans|
      ensures Queued(t'.chans[k]) - {r} == Queued(t.chans[k]) - {r}
              && t'.chans[k].running - {r} == t.chans[k].running - {r} && t'.chans[k].failed - {r} == t.chans[k].failed - {r}
    {
      assert ChanOk(t, k);
      DropFromEffect(t.chans[k], r);
    }
  }

  /** Relocation leaves the job in its own channel, if anywhere. */
  lemma RelocatedOnly(t: Tree, r: Ref, t': Tree, k: Cid)
    requires Inv(t) && Live(t, r) && Relocated(t, t.info[r].chan, r, t') && k < |t.chans| && k != t.info[r].chan
    ensures r !in Queued(t'.chans[k]) && r !in t'.chans[k].running && r !in t'.chans[k].failed
  {
    assert ChanOk(t, k) && Local(t, k);
    DropFromEffect(t.chans[k], r);
    assert r in Present(t.chans[k]) ==> Placed(t, k, r);
  }

  lemma DoneSits(t: Tree, r: Ref)
    requires Inv(t) && Live(t, r)
    ensures Sized(t) && var t' := RemoveUp(t, t.info[r].chan, r); Nowhere(t', r) && OthersSit(t, t', {r})
  {
    var i := t.info[r].chan;
    InvSized(t);
    RemoveUpRelocates(t, i, r);
    assert ChanOk(t, i);
    DropFromEffect(t.chans[i], r);
    RelocatedSit(t, i, r, RemoveUp(t, i, r));
    forall k | 0 <= k < |t.chans| && k != i
      ensures var c := RemoveUp(t, i, r).chans[k]; r !in Queued(c) && r !in c.running && r !in c.failed
    {
      RelocatedOnly(t, r, RemoveUp(t, i, r), k);
    }
  }

  /** Queued in its own channel, and in no other place. */
  ghost predicate OnlyQueued(t: Tree, i: Cid, r: Ref) {
    && i < |t.chans| && r in Queued(t.chans[i])
    && forall k :: 0 <= k < |t.chans| ==> r !in t.chans[k].running && r !in t.chans[k].failed && (k != i ==> r !in Queued(t.chans[k]))
  }

  lemma PendingSits(t: Tree, r: Ref)
    requires Inv(t) && EtaOk(t) && Live(t, r)
    ensures Sized(t) && var t' := SetPending(t, t.info[r].chan, r); OnlyQueued(t', t.info[r].chan, r) && OthersSit(t, t', {r})
  {
    var i := t.info[r].chan;
    var c := t.chans[i];
    var t' := SetPending(t, i, r);
    InvSized(t);
    assert ChanOk(t, i) && Local(t, i);
    AddRemoveAreSetOps(c.due, r);
    AddRemoveAreSetOps(c.eta, r);
    if InQueue(c, r) {
      assert r in Queued(c);
      QueuedAlone(t, r);
    } else {
      EnqueueEffect(c, t.keys, r);
      var c' := Enqueue(c, t.keys, r).(running := c.running - {r}, failed := c.failed - {r});
      RemoveAboveRelocates(t, i, r, c');
      EnqueueFrame(c, t.keys, r);
      RelocatedSit(t, i, r, t');
      forall k | 0 <= k < |t.chans| && k != i
        ensures r !in Queued(t'.chans[k]) && r !in t'.chans[k].running && r !in t'.chans[k].failed
      {
        RelocatedOnly(t, r, t', k);
      }
    }
  }

  lemma QueuedAlone(t: Tree, r: Ref)
    requires Inv(t) && Live(t, r) && r in Queued(t.chans[t.info[r].chan])
    ensures OnlyQueued(t, t.info[r].chan, r)
  {
    var i := t.info[r].chan;
    assert Local(t, i);
    forall k | 0 <= k < |t.chans|
      ensures r !in t.chans[k].running && r !in t.chans[k].failed && (k != i ==> r !in Queued(t.chans[k]))
    {
      assert Local(t, k);
      if k != i {
        NotQueuedAbove(t, r, k);
        assert r in Present(t.chans[k]) ==> Placed(t, k, r);
        if r in t.chans[k].running { NotRunningAbove(t, r, k); }
      }
    }
  }

  /** Failed in its own channel, and in no other place. */
  ghost predicate OnlyFailed(t: Tree, i: Cid, r: Ref) {
    && i < |t.chans| && r in t.chans[i].failed
    && forall k :: 0 <= k < |t.chans| ==> r !in t.chans[k].running && r !in Queued(t.chans[k]) && (k != i ==> r !in t.chans[k].failed)
  }

  lemma FailedSits(t: Tree, r: Ref)
    requires Inv(t) && Live(t, r)
    ensures Sized(t) && var t' := SetFailed(t, t.info[r].chan, r); OnlyFailed(t', t.info[r].chan, r) && OthersSit(t, t', {r})
  {
    var i := t.info[r].chan;
    var c := t.chans[i];
    var t' := SetFailed(t, i, r);
    InvSized(t);
    assert ChanOk(t, i) && Local(t, i);
    if r in c.failed {
      FailedAlone(t, r);
    } else {
      DropFromEffect(c, r);
      var c' := Unqueue(c, r).(running := c.running - {r}, failed := c.failed + {r});
      RemoveAboveRelocates(t, i, r, c');
      RelocatedSit(t, i, r, t');
      forall k | 0 <= k < |t.chans| && k != i
        ensures r !in Queued(t'.chans[k]) && r !in t'.chans[k].running && r !in t'.chans[k].failed
      {
        RelocatedOnly(t, r, t', k);
      }
    }
  }

  lemma FailedAlone(t: Tree, r: Ref)
    requires Inv(t) && Live(t, r) && r in t.chans[t.info[r].chan].failed
    ensures OnlyFailed(t, t.info[r].chan, r)
  {
    var i := t.info[r].chan;
    assert Local(t, i);
    forall k | 0 <= k < |t.chans|
      ensures r !in t.chans[k].running && r !in Queued(t.chans[k]) && (k != i ==> r !in t.chans[k].failed)
    {
      assert Local(t, k);
      if k != i {
        NotQueuedAbove(t, r, k);
        assert r in Present(t.chans[k]) ==> Placed(t, k, r);
        if r in t.chans[k].running { NotRunningAbove(t, r, k); }
      }
    }
  }

  /** Running in every channel from `i` up to the root, and in no other place. */
  ghost predicate OnlyRunning(t: Tree, i: Cid, r: Ref) {
    At(t, i) && forall k :: 0 <= k < |t.chans| ==>
      (r in t.chans[k].running <==> Under(t.parents, k, i)) && r !in Queued(t.chans[k]) && r !in t.chans[k].failed
  }

  lemma RunningSits(t: Tree, r: Ref)
    requires Inv(t) && Live(t, r) && r !in t.chans[t.info[r].chan].running
    ensures Sized(t) && var t' := SetRunning(t, t.info[r].chan, r); OnlyRunning(t', t.info[r].chan, r) && OthersSit(t, t', {r})
  {
    var i := t.info[r].chan;
    InvSized(t);
    forall j | 0 <= j < |t.chans| && Under(t.parents, j, i) ensures r !in t.chans[j].running { NotRunningAbove(t, r, j); }
    SetRunningEffect(t, i, r);
    var t' := SetRunning(t, i, r);
    forall k | 0 <= k < |t.chans|
      ensures (r in t'.chans[k].running <==> Under(t.parents, k, i)) && r !in Queued(t'.chans[k]) && r !in t'.chans[k].failed
      ensures Queued(t'.chans[k]) - {r} == Queued(t.chans[k]) - {r}
              && t'.chans[k].running - {r} == t.chans[k].running - {r} && t'.chans[k].failed - {r} == t.chans[k].failed - {r}
    {
      assert ChanOk(t, k) && Local(t, k);
      RunInEffect(t.chans[k], r);
      assert r in Present(t.chans[k]) ==> Placed(t, k, r);
    }
  }

  // --------------------------------------------------------------------------- removals

  /** A removed job is nowhere, its entry is gone, and no other job is touched. */
  lemma RemoveJobSits(t: Tree, uuid: Uuid)
    requires Inv(t)
    ensures Sized(t) && var t' := RemoveJob(t, uuid);
            && t'.byUuid == t.byUuid - {uuid} && t'.info == t.info && t'.keys == t.keys && Inv(t')
            && (uuid in t.byUuid ==> Nowhere(t', t.byUuid[uuid]) && OthersSit(t, t', {t.byUuid[uuid]}))
            && (uuid !in t.byUuid ==> t' == t)
  {
    InvSized(t);
    RemoveJobKeeps(t, uuid);
    if uuid in t.byUuid {
      UuidEntry(t, uuid);
      DoneSits(t, t.byUuid[uuid]);
      RemoveUpEffect(t, t.info[t.byUuid[uuid]].chan, t.byUuid[uuid]);
    }
  }

  /** The live objects of a database. */
  function JobsOf(t: Tree, db: Db, uuids: set<Uuid>): set<Ref> {
    set u | u in uuids && u in t.byUuid && t.byUuid[u] in t.info && t.info[t.byUuid[u]].db == db :: t.byUuid[u]
  }

  ghost predicate DbGone(t: Tree, db: Db, todo: set<Uuid>, t': Tree) {
    && (forall u :: u in t'.byUuid <==> u in t.byUuid && !(u in todo && t.byUuid[u] in t.info && t.info[t.byUuid[u]].db == db))
    && (forall u :: u in t'.byUuid ==> t'.byUuid[u] == t.byUuid[u])
    && t'.info == t.info && OthersSit(t, t', JobsOf(t, db, todo))
    && forall r :: r in JobsOf(t, db, todo) ==> Nowhere(t', r)
  }

  lemma NowhereStays(t: Tree, t': Tree, gone: set<Ref>, r: Ref)
    requires Nowhere(t, r) && OthersSit(t, t', gone) && r !in gone
    ensures Nowhere(t', r)
  {
    forall k | 0 <= k < |t'.chans| ensures r !in Queued(t'.chans[k]) && r !in t'.chans[k].running && r !in t'.chans[k].failed {
      assert r !in Queued(t.chans[k]) - gone && r !in t.chans[k].running - gone && r !in t.chans[k].failed - gone;
    }
  }

  lemma {:induction false} RemoveDbGone(t: Tree, db: Db, todo: set<Uuid>)
    requires Inv(t)
    ensures Sized(t) && DbGone(t, db, todo, RemoveDb(t, db, todo))
    decreases |todo|
  {
    InvSized(t);
    if todo == {} { SitsAsBefore(t, {}); }
    else {
      var u := Min(todo, map[]);
      var rest := todo - {u};
      var hit := u in t.byUuid && t.byUuid[u] in t.info && t.info[t.byUuid[u]].db == db;
      var t1 := if hit then RemoveJob(t, u) else t;
      RemoveJobSits(t, u);
      assert t1.info == t.info && Inv(t1);
      RemoveDbGone(t1, db, rest);
      EntriesDistinct(t);
      hide Inv, RemoveJob, OthersSit, Nowhere;
      GoneMore(t, t1, db, todo, u, hit, RemoveDb(t1, db, rest));
    }
  }

  lemma EntriesDistinct(t: Tree)
    requires Inv(t)
    ensures forall u, v :: u in t.byUuid && v in t.byUuid && t.byUuid[u] == t.byUuid[v] ==> u == v
  {
  }

  lemma GoneMore(t: Tree, t1: Tree, db: Db, todo: set<Uuid>, u: Uuid, hit: bool, t2: Tree)
    requires u in todo && DbGone(t1, db, todo - {u}, t2) && t1.info == t.info
    requires hit <==> u in t.byUuid && t.byUuid[u] in t.info && t.info[t.byUuid[u]].db == db
    requires !hit ==> t1 == t
    requires hit ==> t1.byUuid == t.byUuid - {u} && Nowhere(t1, t.byUuid[u]) && OthersSit(t, t1, {t.byUuid[u]})
    requires forall u, v :: u in t.byUuid && v in t.byUuid && t.byUuid[u] == t.byUuid[v] ==> u == v
    ensures DbGone(t, db, todo, t2)
  {
    var a := JobsOf(t1, db, todo - {u});
    if hit {
      var r := t.byUuid[u];
      forall x ensures x in JobsOf(t, db, todo) <==> x == r || x in a {
        if x in JobsOf(t, db, todo) {
          var v :| v in todo && v in t.byUuid && t.byUuid[v] in t.info && t.info[t.byUuid[v]].db == db && t.byUuid[v] == x;
          if v != u { assert v in todo - {u} && v in t1.byUuid && t1.byUuid[v] == x; }
        }
      }
      assert JobsOf(t, db, todo) == {r} + a;
      OthersSitOn(t, t1, t2, {r}, a);
      NowhereStays(t1, t2, a, r);
    } else {
      assert JobsOf(t, db, todo) == a;
    }
  }

  /** Removing a database removes exactly its jobs: their entries are gone and they are nowhere,
      and all jobs of other databases are where they were. */
  lemma RemoveDbExactly(t: Tree, db: Db)
    requires Inv(t)
    ensures Sized(t) && var t' := RemoveDb(t, db, t.byUuid.Keys);
            && (forall u :: u in t'.byUuid <==> u in t.byUuid && t.info[t.byUuid[u]].db != db)
            && (forall u :: u in t.byUuid && t.info[t.byUuid[u]].db == db ==> Nowhere(t', t.byUuid[u]))
            && OthersSit(t, t', JobsOf(t, db, t.byUuid.Keys))
  {
    InvSized(t);
    RemoveDbGone(t, db, t.byUuid.Keys);
    forall u | u in t.byUuid ensures t.byUuid[u] in t.info { UuidEntry(t, u); }
    hide Inv, RemoveDb, OthersSit, Nowhere;
  }

  // ---------------------------------------------------------------------- notifications

  /** The object that already stands for the row as it is. */
  predicate StandsFor(t: Tree, row: Row) {
    && row.uuid in t.byUuid && t.byUuid[row.uuid] in t.info && t.byUuid[row.uuid] in t.keys
    && t.keys[t.byUuid[row.uuid]] == Key(row.eta, row.rank) && t.info[t.byUuid[row.uuid]].chan == row.chan
  }

  /** After the property checks an object stands for the row: the known one if it does so
      already, a new one otherwise, and then the known one is nowhere. */
  lemma RefreshedStands(t: Tree, row: Row, newRef: Ref)
    requires Inv(t) && Sized(t) && Allowed(t, Notified(row, newRef)) && Consistent(t, row)
    ensures var (t1, r) := Refreshed(t, row, newRef);
            && StandsFor(t1, row) && t1.byUuid[row.uuid] == r && t1.info[r] == Info(row.db, row.chan, row.uuid)
            && (StandsFor(t, row) ==> t1 == t)
            && (!StandsFor(t, row) ==> r == newRef && Nowhere(t1, r) && OthersSit(t, t1, Known(t, row.uuid))
                                       && forall x :: x in Known(t, row.uuid) ==> Nowhere(t1, x))
  {
    if row.uuid in t.byUuid { UuidEntry(t, row.uuid); }
    assert t.keys.Keys == t.info.Keys;
    NewNowhere(t, newRef);
    RemoveJobSits(t, row.uuid);
    SitsAsBefore(t, {});
    hide Inv, RemoveJob, Nowhere, OthersSit;
    if !StandsFor(t, row) {
      var t0 := if row.uuid in t.byUuid then RemoveJob(t, row.uuid) else t;
      assert Refreshed(t, row, newRef) == (Create(t0, row, newRef), newRef);
      SameChans(t0, Create(t0, row, newRef), t);
      if row.uuid in t.byUuid { NowhereStays(t, t0, {t.byUuid[row.uuid]}, newRef); SameNowhere(t0, Create(t0, row, newRef), t.byUuid[row.uuid]); }
      SameNowhere(t0, Create(t0, row, newRef), newRef);
    }
  }

  function Known(t: Tree, uuid: Uuid): set<Ref> { if uuid in t.byUuid then {t.byUuid[uuid]} else {} }

  lemma SameChans(t0: Tree, t1: Tree, t: Tree)
    requires t1.chans == t0.chans
    ensures forall gone :: OthersSit(t, t0, gone) ==> OthersSit(t, t1, gone)
  {
  }

  lemma SameNowhere(t0: Tree, t1: Tree, r: Ref)
    requires t1.chans == t0.chans && Nowhere(t0, r)
    ensures Nowhere(t1, r)
  {
  }

  lemma NewNowhere(t: Tree, r: Ref)
    requires Inv(t) && r !in t.info
    ensures Nowhere(t, r)
  {
    forall k | 0 <= k < |t.chans| ensures r !in Present(t.chans[k]) {
      assert Local(t, k);
      assert r in Present(t.chans[k]) ==> Placed(t, k, r);
    }
  }

  /** Where a job sits once a row with its state has been applied to the object `r`. */
  ghost predicate Sits(t: Tree, t': Tree, row: Row, r: Ref) {
    match row.state
    case Done => Nowhere(t', r)
    case Cancelled => Nowhere(t', r)
    case Failed => OnlyFailed(t', row.chan, r)
    case Pending => OnlyQueued(t', row.chan, r)
    case WaitDependencies => if StandsFor(t, row) then t' == t else Nowhere(t', r)
    case _ =>
      if StandsFor(t, row) && row.chan < |t.chans| && r in t.chans[row.chan].running then t' == t else OnlyRunning(t', row.chan, r)
  }

  lemma TransitionSits(t: Tree, r: Ref, st: JobState)
    requires Inv(t) && EtaOk(t) && Live(t, r)
    ensures Sized(t) && var i := t.info[r].chan; var t' := Transition(t, i, r, st);
            && t' == t.(chans := t'.chans) && OthersSit(t, t', {r})
            && (st.Done? || st.Cancelled? ==> Nowhere(t', r)) && (st.Failed? ==> OnlyFailed(t', i, r)) && (st.Pending? ==> OnlyQueued(t', i, r))
            && (st.Enqueued? || st.Started? ==> if r in t.chans[i].running then t' == t else OnlyRunning(t', i, r))
            && (st.WaitDependencies? ==> t' == t)
  {
    InvSized(t);
    var i := t.info[r].chan;
    SitsAsBefore(t, {r});
    TransitionFrame(t, i, r, st);
    hide Inv, EtaOk, RemoveUp, SetPending, SetFailed, OthersSit, Nowhere, OnlyFailed, OnlyQueued, OnlyRunning;
    match st {
      case Done => DoneSits(t, r);
      case Cancelled => DoneSits(t, r);
      case Pending => PendingSits(t, r);
      case Enqueued => if r !in t.chans[i].running { RunningSits(t, r); }
      case Started => if r !in t.chans[i].running { RunningSits(t, r); }
      case Failed => FailedSits(t, r);
      case WaitDependencies =>
    }
  }

  lemma TransitionFrame(t: Tree, i: Cid, r: Ref, st: JobState)
    requires At(t, i)
    ensures var t' := Transition(t, i, r, st); t' == t.(chans := t'.chans)
  {
    var c := t.chans[i];
    hide RemoveAbove;
    RemoveUpRelocates(t, i, r);
    RemoveAboveRelocates(t, i, r, Enqueue(c, t.keys, r).(running := c.running - {r}, failed := c.failed - {r}));
    RemoveAboveRelocates(t, i, r, Unqueue(c, r).(running := c.running - {r}, failed := c.failed + {r}));
    RunningFrame(t, i, r);
  }

  lemma {:induction false} RunningFrame(t: Tree, i: Cid, r: Ref)
    requires At(t, i)
    ensures var t' := SetRunning(t, i, r); t' == t.(chans := t'.chans)
    decreases i
  {
    if r !in t.chans[i].running && i != 0 { RunningFrame(Put(t, i, RunIn(t.chans[i], r)), t.parents[i], r); }
  }

  /**
   One row, exactly: the object that stands for the job afterwards carries the row's rank, eta and
   channel; it is the known one precisely if that stood for the row already, and otherwise the
   known one is nowhere. It sits where the row's state says, and every other job is where it was.
   */
  lemma NotifyShows(t: Tree, row: Row, newRef: Ref)
    requires Good(t) && Sized(t) && Allowed(t, Notified(row, newRef)) && Consistent(t, row)
    ensures var t' := Notify(t, row, newRef);
            && row.uuid in t'.byUuid
            && var r := t'.byUuid[row.uuid];
            && r in t'.info && t'.info[r] == Info(row.db, row.chan, row.uuid) && r in t'.keys && t'.keys[r] == Key(row.eta, row.rank)
            && (if StandsFor(t, row) then t.byUuid[row.uuid] == r else r == newRef && forall x :: x in Known(t, row.uuid) ==> Nowhere(t', x))
            && Sits(t, t', row, r) && OthersSit(t, t', Known(t, row.uuid) + {r})
  {
    var (t1, r) := Refreshed(t, row, newRef);
    RefreshedStands(t, row, newRef);
    RefreshedKeeps(t, row, newRef);
    NotifyIsTransition(t, row, newRef);
    TransitionSits(t1, r, row.state);
    var t' := Notify(t, row, newRef);
    if StandsFor(t, row) { OthersSitMore(t, t', {r}, Known(t, row.uuid)); }
    else {
      assert r !in Known(t, row.uuid) by { KnownIsOld(t, row.uuid); }
      hide Good, Inv, Refreshed, Transition, Notify, Consistent, EtaOk, OthersSit, Nowhere, OnlyFailed, OnlyQueued, OnlyRunning;
      OthersSitOn(t, t1, t', Known(t, row.uuid), {r});
      forall x | x in Known(t, row.uuid) ensures Nowhere(t', x) { NowhereStays(t1, t', {r}, x); }
      assert r !in t1.chans[row.chan].running by { NotThere(t1, r, row.chan); }
    }
  }

  lemma NotThere(t: Tree, r: Ref, k: Cid)
    requires Nowhere(t, r) && k < |t.chans|
    ensures r !in t.chans[k].running
  {
  }

  lemma KnownIsOld(t: Tree, uuid: Uuid)
    requires Inv(t)
    ensures forall x :: x in Known(t, uuid) ==> x in t.info
  {
    if uuid in t.byUuid { UuidEntry(t, uuid); }
  }

  lemma OthersSitMore(t: Tree, t': Tree, a: set<Ref>, b: set<Ref>)
    requires OthersSit(t, t', a)
    ensures OthersSit(t, t', b + a)
  {
    SitsAsBefore(t, b);
    OthersSitOn(t, t, t', b, a);
  }

  lemma SitsAsBefore(t: Tree, b: set<Ref>)
    ensures OthersSit(t, t, b)
  {
  }
}
