/**
 Whole runs of the channel manager: any sequence of notifications, removals, scheduling
 passes and channel creations, and what holds in every state it can reach.
 */
module SchedulerRuns {
  import opened Options
  import opened JobQueue
  import opened ChannelTree
  import opened ChannelDrain
  import opened Traversal
  import opened Frontier

  datatype Event =
    | Notified(row: Row, newRef: Ref)
    | Removed(uuid: Uuid)
    | RemovedDb(db: Db)
    | Passed(now: Time)
    | NewChannel(parent: Cid, capacity: Option<int>, throttle: int, sequential: bool)
    | Collected(uuid: Uuid)

  /** What the surroundings guarantee: rows name an existing channel and real dates, a new
      object has an identity of its own, clocks are positive, throttles are not negative. */
  predicate Allowed(t: Tree, ev: Event) {
    match ev
    case Notified(row, newRef) =>
      row.chan < |t.chans| && newRef !in t.info && (row.eta.Some? ==> row.eta.value > 0.0)
    case Passed(now) => now > 0.0
    case NewChannel(parent, _, throttle, _) => parent < |t.chans| && throttle >= 0
    case _ => true
  }

  function Step(t: Tree, ev: Event): (t': Tree)
    requires Sized(t) && Allowed(t, ev)
    ensures Sized(t')
  {
    match ev
    case Notified(row, newRef) => Notify(t, row, newRef)
    case Removed(uuid) => RemoveJob(t, uuid)
    case RemovedDb(db) => RemoveDb(t, db, t.byUuid.Keys)
    case Passed(now) => Pass(t, 0, now).0
    case NewChannel(parent, capacity, throttle, sequential) => AddChannel(t, parent, capacity, throttle, sequential)
    case Collected(uuid) => Forget(t, uuid)
  }

  ghost predicate AllAllowed(t: Tree, evs: seq<Event>)
    requires Sized(t)
    decreases |evs|
  {
    evs != [] ==> Allowed(t, evs[0]) && AllAllowed(Step(t, evs[0]), evs[1..])
  }

  ghost function Run(t: Tree, evs: seq<Event>): (t': Tree)
    requires Sized(t) && AllAllowed(t, evs)
    ensures Sized(t')
    decreases |evs|
  {
    if evs == [] then t else Run(Step(t, evs[0]), evs[1..])
  }

  /** A manager with nothing but a root channel. */
  function Fresh(capacity: Option<int>, throttle: int, sequential: bool): Tree {
    var none := PQ({}, {});
    Tree([0], [Chan(capacity, throttle, sequential, none, none, {}, {}, 0.0)], map[], map[], map[], [])
  }

  ghost predicate PauseInv(t: Tree) {
    forall k :: 0 <= k < |t.chans| ==> PauseOk(t.chans[k])
  }

  ghost predicate Good(t: Tree) { Inv(t) && EtaOk(t) && PauseInv(t) }

  // ------------------------------------------------------------------ notifications

  lemma RemoveJobKeeps(t: Tree, uuid: Uuid)
    requires Inv(t)
    ensures var t' := RemoveJob(t, uuid);
            && Inv(t') && t'.keys == t.keys && t'.info == t.info
            && t'.byUuid == t.byUuid - {uuid}
  {
    if uuid in t.byUuid {
      var r := t.byUuid[uuid];
      var i := t.info[r].chan;
      DoneKeeps(t, r);
      RemoveUpEffect(t, i, r);
      DropEntryKeeps(RemoveUp(t, i, r), uuid, r);
    }
  }

  /** An entry may go once its job is nowhere in the tree. */
  lemma DropEntryKeeps(t: Tree, uuid: Uuid, r: Ref)
    requires Inv(t) && uuid in t.byUuid && t.byUuid[uuid] == r
    requires forall j :: 0 <= j < |t.chans| ==> r !in Present(t.chans[j])
    ensures Inv(t.(byUuid := t.byUuid - {uuid}))
  {
    var t' := t.(byUuid := t.byUuid - {uuid});
    forall j | 0 <= j < |t'.chans| ensures ChanOk(t', j) && Local(t', j) {
      assert ChanOk(t, j) && Local(t, j);
      forall x | x in Present(t'.chans[j]) ensures Placed(t', j, x) {
        assert Placed(t, j, x);
      }
    }
  }

  lemma CreateKeeps(t: Tree, row: Row, r: Ref)
    requires Inv(t) && r !in t.info && row.uuid !in t.byUuid && row.chan < |t.chans|
    ensures Inv(Create(t, row, r))
  {
    var t' := Create(t, row, r);
    forall j | 0 <= j < |t'.chans| ensures ChanOk(t', j) && Local(t', j) {
      assert ChanOk(t, j) && Local(t, j);
      forall x | x in Present(t'.chans[j]) ensures Placed(t', j, x) {
        assert Placed(t, j, x);
      }
    }
  }

  lemma RefreshedKeeps(t: Tree, row: Row, newRef: Ref)
    requires Inv(t) && EtaOk(t) && Allowed(t, Notified(row, newRef)) && Consistent(t, row)
    ensures var (t', r) := Refreshed(t, row, newRef);
            && Inv(t') && EtaOk(t') && r in t'.info && t'.info[r].chan == row.chan
            && t'.info[r].uuid == row.uuid && row.uuid in t'.byUuid && t'.byUuid[row.uuid] == r
  {
    hide Inv, RemoveJob;
    InvSized(t);
    if row.uuid in t.byUuid {
      UuidEntry(t, row.uuid);
      if Reschedules(t, t.byUuid[row.uuid], row) {
        RemoveJobKeeps(t, row.uuid);
        CreateKeeps(RemoveJob(t, row.uuid), row, newRef);
      }
    } else {
      CreateKeeps(t, row, newRef);
    }
  }

  lemma UuidEntry(t: Tree, uuid: Uuid)
    requires Inv(t) && uuid in t.byUuid
    ensures t.byUuid[uuid] in t.info && t.info[t.byUuid[uuid]].uuid == uuid
    ensures t.info[t.byUuid[uuid]].chan < |t.chans|
  {
  }

  lemma NotifyKeeps(t: Tree, row: Row, newRef: Ref)
    requires Inv(t) && EtaOk(t) && Allowed(t, Notified(row, newRef))
    ensures Inv(Notify(t, row, newRef)) && EtaOk(Notify(t, row, newRef))
  {
    hide Inv, Refreshed, SetPending, SetRunning, SetFailed, RemoveUp, EtaOk;
    InvSized(t);
    if Consistent(t, row) {
      RefreshedKeeps(t, row, newRef);
      var (t1, r) := Refreshed(t, row, newRef);
      match row.state {
        case Done => DoneKeeps(t1, r);
        case Cancelled => DoneKeeps(t1, r);
        case Pending => PendingKeeps(t1, r);
        case Enqueued => RunningKeeps(t1, r);
        case Started => RunningKeeps(t1, r);
        case Failed => FailedKeeps(t1, r);
        case WaitDependencies =>
      }
      PathOpsFrame(t1, row.chan, r);
      SameKeysEtaOk(t1, Notify(t, row, newRef));
    }
  }

  lemma SameKeysEtaOk(t: Tree, t': Tree)
    requires EtaOk(t) && t'.keys == t.keys
    ensures EtaOk(t')
  {
  }

  /** The transitions along a path touch neither keys, nor configuration, nor pauses, nor the log. */
  ghost predicate SameOutline(t: Tree, t': Tree) {
    && t'.keys == t.keys && t'.log == t.log && |t'.chans| == |t.chans|
    && forall k :: 0 <= k < |t.chans| ==> SameConfig(t.chans[k], t'.chans[k])
  }

  predicate SameConfig(c: Chan, c': Chan) {
    c'.capacity == c.capacity && c'.throttle == c.throttle && c'.sequential == c.sequential && c'.pause == c.pause
  }

  lemma {:induction false} RemoveUpFrame(t: Tree, i: Cid, r: Ref)
    requires At(t, i)
    ensures SameOutline(t, RemoveUp(t, i, r))
    decreases i
  {
    if i != 0 { RemoveUpFrame(Put(t, i, DropFrom(t.chans[i], r)), t.parents[i], r); }
  }

  lemma {:induction false} SetRunningFrame(t: Tree, i: Cid, r: Ref)
    requires At(t, i)
    ensures SameOutline(t, SetRunning(t, i, r))
    decreases i
  {
    var c := t.chans[i];
    if r !in c.running && i != 0 {
      SetRunningFrame(Put(t, i, Unqueue(c, r).(running := c.running + {r}, failed := c.failed - {r})), t.parents[i], r);
    }
  }

  lemma RemoveAboveFrame(t: Tree, i: Cid, c: Chan, r: Ref)
    requires At(t, i) && SameConfig(t.chans[i], c)
    ensures SameOutline(t, RemoveAbove(Put(t, i, c), i, r))
  {
    hide RemoveUp;
    if i != 0 { RemoveUpFrame(Put(t, i, c), t.parents[i], r); }
  }

  lemma PathOpsFrame(t: Tree, i: Cid, r: Ref)
    requires At(t, i)
    ensures SameOutline(t, RemoveUp(t, i, r)) && SameOutline(t, SetPending(t, i, r))
    ensures SameOutline(t, SetRunning(t, i, r)) && SameOutline(t, SetFailed(t, i, r))
    ensures SameOutline(t, t)
  {
    hide RemoveUp, RemoveAbove, SetRunning;
    var c := t.chans[i];
    RemoveUpFrame(t, i, r);
    SetRunningFrame(t, i, r);
    RemoveAboveFrame(t, i, Enqueue(c, t.keys, r).(running := c.running - {r}, failed := c.failed - {r}), r);
    RemoveAboveFrame(t, i, Unqueue(c, r).(running := c.running - {r}, failed := c.failed + {r}), r);
  }

  lemma {:induction false} RemoveDbKeeps(t: Tree, db: Db, todo: set<Uuid>)
    requires Inv(t)
    ensures Inv(RemoveDb(t, db, todo)) && SameOutline(t, RemoveDb(t, db, todo))
    decreases |todo|
  {
    hide Inv, RemoveJob, SameConfig;
    InvSized(t);
    OutlineSelf(t);
    if todo != {} {
      var u := Min(todo, map[]);
      RemoveJobKeeps(t, u);
      RemoveJobFrame(t, u);
      var hit := u in t.byUuid && t.byUuid[u] in t.info && t.info[t.byUuid[u]].db == db;
      RemoveDbKeeps(if hit then RemoveJob(t, u) else t, db, todo - {u});
      OutlineThen(t, if hit then RemoveJob(t, u) else t, RemoveDb(t, db, todo));
    }
  }

  lemma OutlineSelf(t: Tree)
    ensures SameOutline(t, t)
  {
  }

  lemma OutlineThen(t: Tree, t1: Tree, t2: Tree)
    requires SameOutline(t, t1) && SameOutline(t1, t2)
    ensures SameOutline(t, t2)
  {
    forall k | 0 <= k < |t.chans| ensures SameConfig(t.chans[k], t2.chans[k]) {
      assert SameConfig(t.chans[k], t1.chans[k]) && SameConfig(t1.chans[k], t2.chans[k]);
    }
  }

  lemma RemoveJobFrame(t: Tree, u: Uuid)
    requires Sized(t)
    ensures SameOutline(t, RemoveJob(t, u))
  {
    hide RemoveUp;
    OutlineSelf(t);
    if u in t.byUuid && t.byUuid[u] in t.info && t.info[t.byUuid[u]].chan < |t.chans| {
      RemoveUpFrame(t, t.info[t.byUuid[u]].chan, t.byUuid[u]);
    }
  }

  // --------------------------------------------------------------------- new channels

  lemma {:induction false} UnderExtend(parents: seq<Cid>, p: Cid, k: Cid, d: Cid)
    requires Shape(parents) && p < |parents| && d < |parents|
    ensures Shape(parents + [p]) && (Under(parents + [p], k, d) <==> Under(parents, k, d))
    ensures Under(parents, k, d) && d != k ==> Branch(parents + [p], k, d) == Branch(parents, k, d)
    decreases d
  {
    if d != 0 && d != k { UnderExtend(parents, p, k, parents[d]); }
  }

  lemma AddChannelKeeps(t: Tree, p: Cid, capacity: Option<int>, throttle: int, sequential: bool)
    requires Inv(t) && p < |t.chans|
    ensures Inv(AddChannel(t, p, capacity, throttle, sequential))
  {
    var t' := AddChannel(t, p, capacity, throttle, sequential);
    forall j | 0 <= j < |t'.chans| ensures ChanOk(t', j) && Local(t', j) {
      if j < |t.chans| {
        assert ChanOk(t, j) && Local(t, j);
        forall x | x in Present(t'.chans[j]) ensures Placed(t', j, x) {
          assert Placed(t, j, x);
          UnderExtend(t.parents, p, j, t.info[x].chan);
        }
      }
    }
  }

  lemma ForgetKeeps(t: Tree, uuid: Uuid)
    requires Inv(t)
    ensures Inv(Forget(t, uuid))
  {
    if uuid in t.byUuid && !Held(t, t.byUuid[uuid]) {
      DropEntryKeeps(t, uuid, t.byUuid[uuid]);
    }
  }

  // ----------------------------------------------------------------- passes and pauses

  lemma DrainAtPause(t: Tree, k: Cid, now: Time)
    requires Inv(t) && PauseInv(t) && EtaOk(t) && k < |t.chans| && now > 0.0
    ensures PauseInv(DrainAt(t, k, now).0) && EtaOk(DrainAt(t, k, now).0)
  {
    hide Drain;
    assert ChanOk(t, k);
    DrainSettles(t.chans[k], t.keys, now);
    DrainEffect(t.chans[k], t.keys, now);
  }

  lemma {:induction false} EnqueueAllFrame(t: Tree, i: Cid, ys: seq<Ref>)
    requires At(t, i)
    ensures SameOutline(t, EnqueueAll(t, i, ys))
    ensures forall j :: 0 <= j < |t.chans| && j != i ==> EnqueueAll(t, i, ys).chans[j] == t.chans[j]
    ensures EnqueueAll(t, i, ys).chans[i].running == t.chans[i].running
    ensures EnqueueAll(t, i, ys).chans[i].failed == t.chans[i].failed
    decreases |ys|
  {
    if ys != [] {
      EnqueueAllFrame(Put(t, i, Enqueue(t.chans[i], t.keys, ys[0])), i, ys[1..]);
    }
  }

  lemma OutlineGood(t: Tree, t': Tree)
    requires SameOutline(t, t') && PauseInv(t) && EtaOk(t)
    ensures PauseInv(t') && EtaOk(t')
  {
    forall k | 0 <= k < |t'.chans| ensures PauseOk(t'.chans[k]) {
      assert SameConfig(t.chans[k], t'.chans[k]) && PauseOk(t.chans[k]);
    }
  }

  lemma PullUpGood(t: Tree, k: Cid, now: Time)
    requires Good(t) && 0 < k < |t.chans| && now > 0.0
    ensures Good(PullUp(t, k, now))
  {
    hide Inv, PauseInv, EtaOk, DrainAt, EnqueueAll;
    InvSized(t);
    PullUpKeeps(t, k, now);
    DrainAtPause(t, k, now);
    EnqueueAllFrame(DrainAt(t, k, now).0, t.parents[k], DrainAt(t, k, now).1);
    OutlineGood(DrainAt(t, k, now).0, PullUp(t, k, now));
  }

  lemma {:induction false} SweepGood(t: Tree, ks: seq<Cid>, now: Time)
    requires Good(t) && Visits(|t.chans|, ks) && now > 0.0
    ensures Good(Sweep(t, ks, now))
    decreases |ks|
  {
    hide Inv, PauseInv, EtaOk, PullUp;
    InvSized(t);
    if ks != [] {
      PullUpGood(t, ks[0], now);
      SweepGood(PullUp(t, ks[0], now), ks[1..], now);
    }
  }

  lemma PassGood(t: Tree, now: Time)
    requires Good(t) && now > 0.0
    ensures Good(Pass(t, 0, now).0)
  {
    hide Inv, PauseInv, EtaOk, Sweep, DrainAt, Pass;
    InvSized(t);
    SweepGood(t, Order(t.parents, 0), now);
    DrainAtKeeps(Sweep(t, Order(t.parents, 0), now), 0, now);
    DrainAtPause(Sweep(t, Order(t.parents, 0), now), 0, now);
    PassIsSweep(t, 0, now);
  }

  // --------------------------------------------------------------------- whole runs

  lemma NotifyPause(t: Tree, row: Row, newRef: Ref)
    requires Good(t) && Allowed(t, Notified(row, newRef))
    ensures PauseInv(Notify(t, row, newRef))
  {
    hide Inv, RemoveUp, SetPending, SetRunning, SetFailed, RemoveJob;
    InvSized(t);
    if Consistent(t, row) {
      var (t1, r) := Refreshed(t, row, newRef);
      RemoveJobFrame(t, row.uuid);
      OutlineGood(t, RemoveJob(t, row.uuid));
      PathOpsFrame(t1, row.chan, r);
      SamePauses(t1, Notify(t, row, newRef));
    }
  }

  lemma SamePauses(t: Tree, t': Tree)
    requires SameOutline(t, t') && PauseInv(t)
    ensures PauseInv(t')
  {
    forall k | 0 <= k < |t'.chans| ensures PauseOk(t'.chans[k]) {
      assert SameConfig(t.chans[k], t'.chans[k]) && PauseOk(t.chans[k]);
    }
  }

  lemma StepKeepsGood(t: Tree, ev: Event)
    requires Good(t) && Allowed(t, ev)
    ensures Sized(t) && Good(Step(t, ev))
  {
    hide Inv, PauseInv, EtaOk, Notify, RemoveJob, RemoveDb, Pass, AddChannel, Forget;
    InvSized(t);
    match ev
    case Notified(row, newRef) =>
      NotifyKeeps(t, row, newRef);
      NotifyPause(t, row, newRef);
    case Removed(uuid) =>
      RemoveJobKeeps(t, uuid);
      RemoveJobFrame(t, uuid);
      OutlineGood(t, RemoveJob(t, uuid));
    case RemovedDb(db) =>
      RemoveDbKeeps(t, db, t.byUuid.Keys);
      OutlineGood(t, RemoveDb(t, db, t.byUuid.Keys));
    case Passed(now) => PassGood(t, now);
    case NewChannel(parent, capacity, throttle, sequential) =>
      AddChannelKeeps(t, parent, capacity, throttle, sequential);
      AddChannelPauses(t, parent, capacity, throttle, sequential);
    case Collected(uuid) =>
      ForgetKeeps(t, uuid);
      ForgetFrame(t, uuid);
      OutlineGood(t, Forget(t, uuid));
  }

  lemma ForgetFrame(t: Tree, uuid: Uuid)
    ensures SameOutline(t, Forget(t, uuid))
  {
  }

  lemma AddChannelPauses(t: Tree, p: Cid, capacity: Option<int>, throttle: int, sequential: bool)
    requires Sized(t) && PauseInv(t) && EtaOk(t) && p < |t.chans| && throttle >= 0
    ensures PauseInv(AddChannel(t, p, capacity, throttle, sequential))
    ensures EtaOk(AddChannel(t, p, capacity, throttle, sequential))
  {
  }

  lemma FreshGood(capacity: Option<int>, throttle: int, sequential: bool)
    requires throttle >= 0
    ensures Good(Fresh(capacity, throttle, sequential))
  {
    var t := Fresh(capacity, throttle, sequential);
    assert ChanOk(t, 0) && Local(t, 0);
  }

  /** Every state of every run satisfies the invariant. */
  lemma {:induction false} RunKeepsGood(t: Tree, evs: seq<Event>)
    requires Good(t) && Sized(t) && AllAllowed(t, evs)
    ensures Good(Run(t, evs))
    decreases |evs|
  {
    hide Good, Step, Allowed;
    if evs != [] {
      StepKeepsGood(t, evs[0]);
      RunKeepsGood(Step(t, evs[0]), evs[1..]);
    }
  }

  // ---------------------------------------------------------- the shape of the frontier

  function Depth(parents: seq<Cid>, i: Cid): nat
    requires Shape(parents) && i < |parents|
    decreases i
  {
    if i == 0 then 0 else 1 + Depth(parents, parents[i])
  }

  /** The channel `d` steps above `i`. */
  function Up(parents: seq<Cid>, i: Cid, d: nat): (k: Cid)
    requires Shape(parents) && i < |parents| && d <= Depth(parents, i)
    ensures k < |parents|
    decreases i
  {
    if d == 0 then i else Up(parents, parents[i], d - 1)
  }

  lemma {:induction false} UpNext(parents: seq<Cid>, i: Cid, d: nat)
    requires Shape(parents) && i < |parents| && d < Depth(parents, i)
    ensures var k := Up(parents, i, d); k > 0 && Up(parents, i, d + 1) == parents[k]
    ensures Under(parents, Up(parents, i, d), i)
    decreases i
  {
    if d == 0 {
      assert Up(parents, parents[i], 0) == parents[i];
    } else {
      UpNext(parents, parents[i], d - 1);
    }
  }

  lemma {:induction false} UpUnder(parents: seq<Cid>, i: Cid, d: nat)
    requires Shape(parents) && i < |parents| && d <= Depth(parents, i)
    ensures Under(parents, Up(parents, i, d), i)
    ensures d > 0 ==> Up(parents, i, d) < i
    decreases i
  {
    if d > 0 {
      UpUnder(parents, parents[i], d - 1);
      UnderBound(parents, Up(parents, i, d), parents[i]);
    }
  }

  /** Running somewhere above means running one step below. */
  lemma StepDown(t: Tree, r: Ref, d: nat)
    requires Inv(t) && r in t.info && d < Depth(t.parents, t.info[r].chan)
    requires r in t.chans[Up(t.parents, t.info[r].chan, d + 1)].running + Queued(t.chans[Up(t.parents, t.info[r].chan, d + 1)])
    ensures r in t.chans[Up(t.parents, t.info[r].chan, d)].running
  {
    var i := t.info[r].chan;
    var below, above := Up(t.parents, i, d), Up(t.parents, i, d + 1);
    UpNext(t.parents, i, d);
    assert Local(t, above) && Placed(t, above, r);
    UpUnder(t.parents, i, d + 1);
    UnderChild(t.parents, above, below, i);
  }

  /** How many channels of its path, counted from below, the job runs in. */
  ghost predicate RunsInPrefix(t: Tree, r: Ref, m: nat)
    requires Sized(t) && r in t.info && t.info[r].chan < |t.chans|
  {
    var i := t.info[r].chan;
    forall d :: 0 <= d <= Depth(t.parents, i) ==> (r in t.chans[Up(t.parents, i, d)].running <==> d < m)
  }

  lemma {:induction false} PrefixUpTo(t: Tree, r: Ref, n: nat) returns (m: nat)
    requires Inv(t) && r in t.info && n <= Depth(t.parents, t.info[r].chan) + 1
    ensures m <= n
    ensures forall d :: 0 <= d < n ==> (r in t.chans[Up(t.parents, t.info[r].chan, d)].running <==> d < m)
  {
    if n == 0 {
      m := 0;
    } else {
      m := PrefixUpTo(t, r, n - 1);
      var i := t.info[r].chan;
      if r in t.chans[Up(t.parents, i, n - 1)].running {
        if n >= 2 { StepDown(t, r, n - 2); }
        m := n;
      }
    }
  }

  /**
   The frontier: along the path from its own channel to the root a job runs in a prefix of
   the channels, is queued in at most the next one, and is absent above and off the path;
   it can be failed only in its own channel, and the three sets of a channel are disjoint.
   A job found anywhere is the one live object of its uuid.
   */
  lemma FrontierShape(t: Tree, r: Ref) returns (m: nat)
    requires Inv(t) && r in t.info
    ensures m <= Depth(t.parents, t.info[r].chan) + 1 && RunsInPrefix(t, r, m)
    ensures forall d :: 0 <= d <= Depth(t.parents, t.info[r].chan) && d != m ==>
              r !in Queued(t.chans[Up(t.parents, t.info[r].chan, d)])
    ensures forall k :: 0 <= k < |t.chans| && r in t.chans[k].failed ==> k == t.info[r].chan && m == 0
    ensures forall k :: 0 <= k < |t.chans| && !Under(t.parents, k, t.info[r].chan) ==> r !in Present(t.chans[k])
    ensures forall k :: 0 <= k < |t.chans| ==> Apart(t.chans[k])
    ensures (exists k :: 0 <= k < |t.chans| && r in Present(t.chans[k])) ==>
              t.info[r].uuid in t.byUuid && t.byUuid[t.info[r].uuid] == r
  {
    var i := t.info[r].chan;
    m := PrefixUpTo(t, r, Depth(t.parents, i) + 1);
    forall d | 0 <= d <= Depth(t.parents, i) && d != m
      ensures r !in Queued(t.chans[Up(t.parents, i, d)])
    {
      QueuedOnlyNext(t, r, m, d);
    }
    forall k | 0 <= k < |t.chans|
      ensures Apart(t.chans[k])
      ensures r in Present(t.chans[k]) ==> Placed(t, k, r)
    {
      assert Local(t, k);
    }
    assert Up(t.parents, i, 0) == i;
  }

  lemma QueuedOnlyNext(t: Tree, r: Ref, m: nat, d: nat)
    requires Inv(t) && r in t.info && RunsInPrefix(t, r, m)
    requires d <= Depth(t.parents, t.info[r].chan) && d != m
    ensures r !in Queued(t.chans[Up(t.parents, t.info[r].chan, d)])
  {
    var k := Up(t.parents, t.info[r].chan, d);
    assert Local(t, k);
    if d > m && r in Queued(t.chans[k]) { StepDown(t, r, d - 1); assert false; }
  }

  /** When a deferred job is released, no heap of any channel still holds it. */
  lemma SetNoEtaTouchesNoHeap(t: Tree, k: Cid, h: Ref)
    requires Inv(t) && k < |t.chans| && t.chans[k].eta.Live() != {} && h == Min(t.chans[k].eta.Live(), t.keys)
    ensures h !in t.chans[k].eta.Pop(t.keys).0.known
    ensures forall j :: 0 <= j < |t.chans| ==> h !in t.chans[j].due.known && (j != k ==> h !in t.chans[j].eta.known)
  {
    assert ChanOk(t, k);
    PopTakesMin(t.chans[k].eta, t.keys);
    forall j | 0 <= j < |t.chans|
      ensures h !in t.chans[j].due.known && (j != k ==> h !in t.chans[j].eta.known)
    {
      assert ChanOk(t, j);
    }
  }

  /** So a pass changes no key of an object that stays in a heap. */
  lemma DrainKeepsHeapKeys(t: Tree, k: Cid, now: Time, j: Cid, r: Ref)
    requires Inv(t) && k < |t.chans| && j < |t.chans|
    requires r in t.chans[j].eta.known + t.chans[j].due.known
    requires j == k ==> r in DrainAt(t, k, now).0.chans[k].eta.known || r in t.chans[k].due.known
    ensures KeyOf(DrainAt(t, k, now).0.keys, r) == KeyOf(t.keys, r)
  {
    hide DrainAt;
    assert ChanOk(t, k) && ChanOk(t, j);
    DrainAtFacts(t, k, now);
    var (t', ys) := DrainAt(t, k, now);
    if j != k {
      OtherQueueOk(t, k, j, t'.keys, t.chans[k].eta.Live() - t'.chans[k].eta.Live());
    }
  }
}
