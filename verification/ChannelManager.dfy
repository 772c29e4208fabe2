/**
 The channel manager as the program runs it: one object whose fields are updated in place by
 loops and by recursion over the channels. Every method is tied to the function of
 `ChannelTree` that the theorems are about.
 */
module ChannelManagement {
  import opened Options
  import opened JobQueue
  import opened ChannelTree
  import opened ChannelDrain
  import opened Frontier
  import opened SchedulerRuns
  import opened Sleep

  // ------------------------------------------- the rest of a loop, as the functions see it

  lemma ReleaseStep(c: Chan, keys: Keys, now: Time)
    ensures var e := c.eta.Trim(keys);
            if c.eta.Len() == 0 then Release(c, keys, now) == (c, keys)
            else if c.eta.Peek(keys).None? || EtaOf(keys, c.eta.Peek(keys).value) > now then Release(c, keys, now) == (c.(eta := e), keys)
            else if e.Pop(keys).1.None? then Release(c, keys, now) == (c.(eta := e), keys)
            else var j := e.Pop(keys).1.value;
                 && |e.Pop(keys).0.known| < |c.eta.known|
                 && Release(c, keys, now) == Release(c.(eta := e.Pop(keys).0, due := c.due.Add(j)), SetNoEta(keys, j), now)
  {
    SubsetSize(c.eta.Trim(keys).known, c.eta.known);
  }

  /** The wakeup time does not depend on what is left in the heaps of removed jobs. */
  lemma {:induction false} HousekeptWakeup(t: Tree, t': Tree, i: Cid, w: Time)
    requires At(t, i) && ValidHeaps(t) && Housekept(t, t')
    ensures Sized(t') && Wakeup(t', i, w) == Wakeup(t, i, w)
    decreases |t.chans| - i, 1, 0
  {
    hide QueueWakeup, Trimmed;
    assert SameQuestion(t.chans[i], t'.chans[i], t.keys, w) by { TrimmedQuestion(t.chans[i], t'.chans[i], t.keys, w); }
    HousekeptWakeupChildren(t, t', i, i + 1, QueueWakeup(t.chans[i], t.keys, w));
  }

  predicate SameQuestion(c: Chan, c': Chan, keys: Keys, w: Time) {
    HasCapacity(c) == HasCapacity(c') && c.pause == c'.pause && QueueWakeup(c, keys, w) == QueueWakeup(c', keys, w)
  }

  lemma TrimmedQuestion(c: Chan, c': Chan, keys: Keys, w: Time)
    requires Trimmed(c, c') && c.due.Valid() && c.eta.Valid()
    ensures SameQuestion(c, c', keys, w)
  {
    EmptyQueue(c.eta, keys);
    EmptyQueue(c'.eta, keys);
    TrimKeepsLive(c.eta, keys);
    TrimKeepsLive(c'.eta, keys);
  }

  lemma {:induction false} HousekeptWakeupChildren(t: Tree, t': Tree, i: Cid, j: Cid, w: Time)
    requires At(t, i) && i < j <= |t.chans| && ValidHeaps(t) && Housekept(t, t')
    ensures Sized(t') && WakeupChildren(t', i, j, w) == WakeupChildren(t, i, j, w)
    decreases |t.chans| - i, 0, |t.chans| - j
  {
    hide Trimmed, ValidHeaps;
    if j < |t.chans| {
      if t.parents[j] == i {
        HousekeptWakeup(t, t', j, w);
        HousekeptWakeupChildren(t, t', i, j + 1, Wakeup(t, j, w));
      } else {
        HousekeptWakeupChildren(t, t', i, j + 1, w);
      }
    }
  }

  class ChannelManager {
    var parents: seq<Cid>
    var chans: seq<Chan>
    var info: map<Ref, Info>
    var keys: Keys
    var byUuid: map<Uuid, Ref>
    var next: Ref
    ghost var log: seq<Yield>

    ghost function View(): Tree
      reads this
    {
      Tree(parents, chans, info, keys, byUuid, log)
    }

    ghost predicate Valid()
      reads this
    {
      Good(View()) && Sized(View()) && forall r :: r in info ==> r < next
    }

    constructor (capacity: Option<int>, throttle: nat, sequential: bool)
      ensures Valid() && View() == Fresh(capacity, throttle, sequential)
    {
      parents := [0];
      chans := [Chan(capacity, throttle, sequential, PQ({}, {}), PQ({}, {}), {}, {}, 0.0)];
      info, keys, byUuid, next, log := map[], map[], map[], 0, [];
      FreshGood(capacity, throttle, sequential);
    }

    // ------------------------------------------------------------------ scheduling pass

    method ReleaseDue(i: Cid, now: Time)
      requires At(View(), i)
      modifies this`chans, this`keys
      ensures |chans| == |old(chans)| && chans == old(chans)[i := chans[i]]
      ensures (chans[i], keys) == Release(old(chans)[i], old(keys), now)
    {
      while chans[i].eta.Len() != 0
        invariant |chans| == |old(chans)| && chans == old(chans)[i := chans[i]]
        invariant Release(chans[i], keys, now) == Release(old(chans)[i], old(keys), now)
        decreases |chans[i].eta.known|
      {
        var c := chans[i];
        ReleaseStep(c, keys, now);
        var head := c.eta.Peek(keys);
        if head.None? || EtaOf(keys, head.value) > now {
          chans := chans[i := c.(eta := c.eta.Trim(keys))];
          return;
        }
        var (e, j) := c.eta.Trim(keys).Pop(keys);
        if j.None? {
          chans := chans[i := c.(eta := c.eta.Trim(keys))];
          return;
        }
        chans := chans[i := c.(eta := e, due := c.due.Add(j.value))];
        keys := SetNoEta(keys, j.value);
      }
      ReleaseStep(chans[i], keys, now);
    }

    method PopFrom(i: Cid, now: Time) returns (o: Option<Ref>)
      requires At(View(), i)
      modifies this`chans, this`keys
      ensures |chans| == |old(chans)| && chans == old(chans)[i := chans[i]]
      ensures (chans[i], keys, o) == PopJob(old(chans)[i], old(keys), now)
    {
      ReleaseDue(i, now);
      var c := chans[i];
      if c.sequential && c.eta.Len() != 0 && c.due.Len() != 0 {
        var waits := Waits(c, keys);
        c := c.(eta := c.eta.Trim(keys), due := c.due.Trim(keys));
        chans := chans[i := c];
        if waits { return None; }
      }
      var (d, j) := c.due.Pop(keys);
      chans := chans[i := c.(due := d)];
      o := j;
    }

    method DrainQueue(i: Cid, now: Time) returns (ys: seq<Ref>)
      requires At(View(), i)
      modifies this`chans, this`keys
      ensures |chans| == |old(chans)| && chans == old(chans)[i := chans[i]]
      ensures (chans[i], keys, ys) == DrainLoop(old(chans)[i], old(keys), now)
    {
      hide PopJob;
      ys := [];
      assert ys + DrainLoop(chans[i], keys, now).2 == DrainLoop(chans[i], keys, now).2;
      while HasCapacity(chans[i])
        invariant |chans| == |old(chans)| && chans == old(chans)[i := chans[i]]
        invariant DrainLoop(old(chans)[i], old(keys), now) == Prepend(ys, DrainLoop(chans[i], keys, now))
        decreases |chans[i].due.known| + |chans[i].eta.known|
      {
        ghost var c, k, before := chans[i], keys, ys;
        var o := PopFrom(i, now);
        if o.None? {
          assert ys + [] == ys;
          return;
        }
        chans := chans[i := chans[i].(running := chans[i].running + {o.value})];
        ys := ys + [o.value];
        if chans[i].throttle != 0 {
          chans := chans[i := chans[i].(pause := now + chans[i].throttle as real)];
          return;
        }
        DrainLoopStep(c, k, now, chans[i], keys, o.value, before);
      }
      assert ys + [] == ys;
    }

    method YieldJobs(i: Cid, now: Time) returns (ys: seq<Ref>)
      requires At(View(), i)
      modifies this`chans, this`keys, this`log
      ensures (View(), ys) == DrainAt(old(View()), i, now)
    {
      hide DrainLoop;
      assert chans[i := chans[i]] == chans;
      if chans[i].throttle != 0 && chans[i].pause != 0.0 {
        if now < chans[i].pause {
          log := log + LogOf(i, now, []);
          return [];
        }
        chans := chans[i := chans[i].(pause := 0.0)];
      }
      ys := DrainQueue(i, now);
      assert chans == old(chans)[i := chans[i]];
      log := log + LogOf(i, now, ys);
    }

    method EnqueueJobs(i: Cid, ys: seq<Ref>)
      requires At(View(), i)
      modifies this`chans
      ensures View() == EnqueueAll(old(View()), i, ys)
    {
      ghost var start := View();
      assert ys[0..] == ys;
      for m := 0 to |ys|
        invariant At(View(), i) && View() == start.(chans := chans)
        invariant EnqueueAll(View(), i, ys[m..]) == EnqueueAll(start, i, ys)
      {
        assert ys[m..][0] == ys[m] && ys[m..][1..] == ys[m + 1..];
        chans := chans[i := Enqueue(chans[i], keys, ys[m])];
      }
    }

    /** `Channel.get_jobs_to_run`, fully consumed. */
    method GetJobsToRun(i: Cid, now: Time) returns (ys: seq<Ref>)
      requires At(View(), i)
      modifies this`chans, this`keys, this`log
      ensures (View(), ys) == Pass(old(View()), i, now)
      decreases |chans| - i
    {
      ghost var start := View();
      var n := |chans|;
      hide DrainAt, EnqueueAll;
      for j := i + 1 to n
        invariant At(View(), i) && |chans| == n && parents == start.parents
        invariant info == start.info && byUuid == start.byUuid
        invariant PassChildren(View(), i, j, now) == PassChildren(start, i, i + 1, now)
      {
        if parents[j] == i {
          var handed := GetJobsToRun(j, now);
          EnqueueJobs(i, handed);
        }
      }
      ys := YieldJobs(i, now);
    }

    /** `Channel.get_wakeup_time`; peeking at an eta heap drops removed jobs from its top. */
    method GetWakeupTime(i: Cid, w: Time) returns (v: Time)
      requires At(View(), i) && ValidHeaps(View())
      modifies this`chans
      ensures View() == Look(old(View()), i) && v == Wakeup(old(View()), i, w)
      decreases |chans| - i
    {
      hide QueueWakeup, Trimmed;
      ghost var start := View();
      var c := chans[i];
      if !HasCapacity(c) { return w; }
      if c.pause != 0.0 { return Sooner(w, c.pause); }
      v := QueueWakeup(c, keys, w);
      LookOne(start, i);
      chans := chans[i := if c.eta.Len() == 0 then c else c.(eta := c.eta.Trim(keys))];
      ghost var looked := View();
      HousekeptValid(start, looked);
      HousekeptWakeupChildren(start, looked, i, i + 1, v);
      var n := |chans|;
      hide Housekept, ValidHeaps, HasCapacity;
      assert Housekept(looked, looked) by { LookOne(looked, i); }
      for j := i + 1 to n
        invariant At(View(), i) && |chans| == n && View() == start.(chans := chans)
        invariant ValidHeaps(View()) && Housekept(looked, View())
        invariant LookChildren(View(), i, j) == LookChildren(looked, i, i + 1)
        invariant WakeupChildren(looked, i, j, v) == Wakeup(start, i, w)
      {
        if parents[j] == i {
          ghost var here := View();
          HousekeptWakeup(looked, here, j, v);
          v := GetWakeupTime(j, v);
          LookKeeps(here, j);
          HousekeptValid(here, View());
          HousekeptThen(looked, here, View());
        }
      }
    }

    // ---------------------------------------------------------------- state transitions

    method Remove(i: Cid, r: Ref)
      requires At(View(), i)
      modifies this`chans
      ensures View() == RemoveUp(old(View()), i, r)
      decreases i
    {
      chans := chans[i := DropFrom(chans[i], r)];
      if i != 0 { Remove(parents[i], r); }
    }

    method MarkPending(i: Cid, r: Ref)
      requires At(View(), i)
      modifies this`chans
      ensures View() == SetPending(old(View()), i, r)
    {
      var c := chans[i];
      if !InQueue(c, r) {
        chans := chans[i := Enqueue(c, keys, r).(running := c.running - {r}, failed := c.failed - {r})];
        if i != 0 { Remove(parents[i], r); }
      }
    }

    method MarkRunning(i: Cid, r: Ref)
      requires At(View(), i)
      modifies this`chans
      ensures View() == SetRunning(old(View()), i, r)
      decreases i
    {
      var c := chans[i];
      if r !in c.running {
        chans := chans[i := Unqueue(c, r).(running := c.running + {r}, failed := c.failed - {r})];
        if i != 0 { MarkRunning(parents[i], r); }
      }
    }

    method MarkFailed(i: Cid, r: Ref)
      requires At(View(), i)
      modifies this`chans
      ensures View() == SetFailed(old(View()), i, r)
    {
      var c := chans[i];
      if r !in c.failed {
        chans := chans[i := Unqueue(c, r).(running := c.running - {r}, failed := c.failed + {r})];
        if i != 0 { Remove(parents[i], r); }
      }
    }

    method Discard(uuid: Uuid)
      requires Sized(View())
      modifies this`chans, this`byUuid
      ensures View() == ChannelTree.RemoveJob(old(View()), uuid)
    {
      if uuid in byUuid && byUuid[uuid] in info && info[byUuid[uuid]].chan < |chans| {
        Remove(info[byUuid[uuid]].chan, byUuid[uuid]);
        byUuid := byUuid - {uuid};
      }
    }

    // --------------------------------------------------------- the interface of the runner

    /** The job object for a row, replaced when a property that matters for scheduling changed. */
    method Refresh(row: Row) returns (r: Ref)
      requires Sized(View()) && ChannelTree.Consistent(View(), row) && forall r :: r in info ==> r < next
      modifies this`chans, this`byUuid, this`info, this`keys, this`next
      ensures (View(), r) == ChannelTree.Refreshed(old(View()), row, old(next))
      ensures forall r :: r in info ==> r < next
    {
      hide ChannelTree.RemoveJob;
      if row.uuid in byUuid {
        r := byUuid[row.uuid];
        if row.rank.sequence == RankOf(keys, r).sequence && row.rank.priority == RankOf(keys, r).priority
           && row.eta == KeyOf(keys, r).eta && row.chan == info[r].chan {
          return;
        }
        RemoveJobInfo(View(), row.uuid);
        Discard(row.uuid);
      }
      r := next;
      info := info[r := Info(row.db, row.chan, row.uuid)];
      keys := keys[r := Key(row.eta, row.rank)];
      byUuid := byUuid[row.uuid := r];
      next := next + 1;
    }

    method SetState(i: Cid, r: Ref, state: JobState)
      requires At(View(), i)
      modifies this`chans
      ensures View() == match state
                        case Done => RemoveUp(old(View()), i, r)
                        case Cancelled => RemoveUp(old(View()), i, r)
                        case Pending => SetPending(old(View()), i, r)
                        case Enqueued => SetRunning(old(View()), i, r)
                        case Started => SetRunning(old(View()), i, r)
                        case Failed => SetFailed(old(View()), i, r)
                        case WaitDependencies => old(View())
    {
      hide RemoveUp, SetPending, SetRunning, SetFailed;
      match state
      case Done => Remove(i, r);
      case Cancelled => Remove(i, r);
      case Pending => MarkPending(i, r);
      case Enqueued => MarkRunning(i, r);
      case Started => MarkRunning(i, r);
      case Failed => MarkFailed(i, r);
      case WaitDependencies =>
    }

    method Notify(row: Row)
      requires Valid() && row.chan < |chans| && (row.eta.Some? ==> row.eta.value > 0.0)
      modifies this
      ensures Valid() && View() == ChannelTree.Notify(old(View()), row, old(next))
    {
      assert Allowed(View(), Notified(row, next));
      hide Good, ChannelTree.Refreshed, RemoveUp, SetPending, SetRunning, SetFailed;
      StepKeepsGood(View(), Notified(row, next));
      if row.uuid in byUuid {
        var r := byUuid[row.uuid];
        if !(r in info && info[r].db == row.db && RankOf(keys, r).created == row.rank.created) { return; }
      }
      var r := Refresh(row);
      SetState(row.chan, r, row.state);
    }

    /** `Channel.__init__` for a child of an existing channel. */
    method CreateChannel(parent: Cid, capacity: Option<int>, throttle: nat, sequential: bool)
      requires Valid() && parent < |chans|
      modifies this`parents, this`chans
      ensures Valid() && View() == AddChannel(old(View()), parent, capacity, throttle, sequential)
      ensures |chans| == |old(chans)| + 1 && chans[..|old(chans)|] == old(chans) && parents == old(parents) + [parent]
      ensures var c := chans[|old(chans)|];
              && c.capacity == capacity && c.throttle == throttle && c.sequential == sequential && c.pause == 0.0
              && Queued(c) == {} && c.running == {} && c.failed == {}
    {
      StepKeepsGood(View(), NewChannel(parent, capacity, throttle, sequential));
      parents := parents + [parent];
      chans := chans + [Chan(capacity, throttle, sequential, PQ({}, {}), PQ({}, {}), {}, {}, 0.0)];
    }

    method RemoveJob(uuid: Uuid)
      requires Valid()
      modifies this
      ensures Valid() && View() == ChannelTree.RemoveJob(old(View()), uuid)
    {
      StepKeepsGood(View(), Removed(uuid));
      RemoveJobKeeps(View(), uuid);
      Discard(uuid);
    }

    method RemoveDb(db: Db)
      requires Valid()
      modifies this`chans, this`byUuid
      ensures Valid() && View() == ChannelTree.RemoveDb(old(View()), db, old(byUuid).Keys)
    {
      ghost var start := View();
      StepKeepsGood(start, RemovedDb(db));
      var todo := byUuid.Keys;
      hide Good, ChannelTree.RemoveJob;
      while todo != {}
        invariant Sized(View()) && info == start.info
        invariant ChannelTree.RemoveDb(View(), db, todo) == ChannelTree.RemoveDb(start, db, start.byUuid.Keys)
        decreases |todo|
      {
        var u := Min(todo, map[]);
        if u in byUuid && byUuid[u] in info && info[byUuid[u]].db == db {
          RemoveJobInfo(View(), u);
          Discard(u);
        }
        todo := todo - {u};
      }
      assert View() == ChannelTree.RemoveDb(start, db, start.byUuid.Keys);
    }

    /** A full scheduling pass at `now`. */
    method RunPass(now: Time) returns (ys: seq<Ref>)
      requires Valid() && now > 0.0
      modifies this
      ensures Valid() && (View(), ys) == Pass(old(View()), 0, now)
    {
      StepKeepsGood(View(), Passed(now));
      ys := GetJobsToRun(0, now);
    }

    /** How long the runner may sleep: 0 for "until notified". */
    method WakeupTime() returns (w: Time)
      requires Valid()
      modifies this
      ensures Valid() && View() == Look(old(View()), 0) && w == Wakeup(old(View()), 0, 0.0)
    {
      ghost var start := View();
      GoodHeaps(start);
      LookKeeps(start, 0);
      HousekeptGood(start, Look(start, 0));
      w := GetWakeupTime(0, 0.0);
    }
  }

  function Prepend(xs: seq<Ref>, d: (Chan, Keys, seq<Ref>)): (Chan, Keys, seq<Ref>) { (d.0, d.1, xs + d.2) }

  lemma DrainLoopStep(c: Chan, keys: Keys, now: Time, c2: Chan, keys2: Keys, o: Ref, before: seq<Ref>)
    requires HasCapacity(c) && c.throttle == 0 && PopJob(c, keys, now).1 == keys2 && PopJob(c, keys, now).2 == Some(o)
    requires c2 == PopJob(c, keys, now).0.(running := PopJob(c, keys, now).0.running + {o})
    ensures Prepend(before, DrainLoop(c, keys, now)) == Prepend(before + [o], DrainLoop(c2, keys2, now))
  {
    hide PopJob;
    assert before + ([o] + DrainLoop(c2, keys2, now).2) == before + [o] + DrainLoop(c2, keys2, now).2;
  }

  lemma RemoveJobInfo(t: Tree, u: Uuid)
    requires Sized(t)
    ensures ChannelTree.RemoveJob(t, u).info == t.info
  {
    if u in t.byUuid && t.byUuid[u] in t.info && t.info[t.byUuid[u]].chan < |t.chans| {
      RemoveUpEffect(t, t.info[t.byUuid[u]].chan, t.byUuid[u]);
    }
  }
}
