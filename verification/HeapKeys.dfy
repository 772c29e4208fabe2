/**
 Heaps rely on the keys of what they hold: over whole runs, no key changes while its object sits
 in a heap.
 */
module HeapKeys {
  import opened JobQueue
  import opened ChannelTree
  import opened Traversal
  import opened Frontier
  import opened SchedulerRuns

  /** Keys of existing objects stay as they are, or lose their eta. */
  ghost predicate OnlyFade(keys: Keys, keys': Keys) {
    forall r :: r in keys ==> r in keys' && keys'[r].rank == keys[r].rank && (keys'[r].eta == keys[r].eta || keys'[r].eta.None?)
  }

  lemma FadeOn(a: Keys, b: Keys, c: Keys)
    requires OnlyFade(a, b) && OnlyFade(b, c)
    ensures OnlyFade(a, c)
  {
    forall r | r in a ensures r in c && c[r].rank == a[r].rank && (c[r].eta == a[r].eta || c[r].eta.None?) {
      assert r in b;
    }
  }

  lemma DrainFades(t: Tree, k: Cid, now: Time)
    requires Inv(t) && k < |t.chans|
    ensures OnlyFade(t.keys, DrainAt(t, k, now).0.keys)
  {
    hide DrainAt;
    DrainAtFacts(t, k, now);
  }

  lemma {:induction false} EnqueueSameKeys(t: Tree, i: Cid, ys: seq<Ref>)
    requires At(t, i)
    ensures EnqueueAll(t, i, ys).keys == t.keys
    decreases |ys|
  {
    if ys != [] { EnqueueSameKeys(Put(t, i, Enqueue(t.chans[i], t.keys, ys[0])), i, ys[1..]); }
  }

  lemma {:induction false} SweepFades(t: Tree, ks: seq<Cid>, now: Time)
    requires Inv(t) && Visits(|t.chans|, ks)
    ensures Sized(t) && OnlyFade(t.keys, Sweep(t, ks, now).keys)
    decreases |ks|
  {
    InvSized(t);
    hide Inv, DrainAt, EnqueueAll;
    if ks != [] {
      var t1 := PullUp(t, ks[0], now);
      DrainFades(t, ks[0], now);
      EnqueueSameKeys(DrainAt(t, ks[0], now).0, t.parents[ks[0]], DrainAt(t, ks[0], now).1);
      PullUpKeeps(t, ks[0], now);
      SweepFades(t1, ks[1..], now);
      FadeOn(t.keys, t1.keys, Sweep(t, ks, now).keys);
    }
  }

  lemma PassFades(t: Tree, i: Cid, now: Time)
    requires Inv(t) && i < |t.chans|
    ensures Sized(t) && OnlyFade(t.keys, Pass(t, i, now).0.keys)
  {
    InvSized(t);
    hide Inv, Sweep, DrainAt, Pass;
    var ks := Order(t.parents, i);
    SweepFades(t, ks, now);
    SweepKeeps(t, ks, now);
    DrainFades(Sweep(t, ks, now), i, now);
    PassIsSweep(t, i, now);
    FadeOn(t.keys, Sweep(t, ks, now).keys, Pass(t, i, now).0.keys);
  }

  lemma RefreshedFades(t: Tree, row: Row, newRef: Ref)
    requires Inv(t) && Sized(t) && Allowed(t, Notified(row, newRef))
    ensures OnlyFade(t.keys, Refreshed(t, row, newRef).0.keys)
  {
    assert newRef !in t.keys;
    RemoveJobKeeps(t, row.uuid);
    hide RemoveJob, Inv;
  }

  lemma NotifyFades(t: Tree, row: Row, newRef: Ref)
    requires Inv(t) && Sized(t) && Allowed(t, Notified(row, newRef))
    ensures OnlyFade(t.keys, Notify(t, row, newRef).keys)
  {
    RefreshedFades(t, row, newRef);
    hide Inv, RemoveUp, SetPending, SetFailed, SetRunning, Refreshed, SameConfig, Consistent;
    var (t1, r) := Refreshed(t, row, newRef);
    PathOpsFrame(t1, row.chan, r);
    assert Consistent(t, row) ==> Notify(t, row, newRef).keys == t1.keys;
  }

  lemma StepFades(t: Tree, ev: Event)
    requires Good(t) && Allowed(t, ev)
    ensures Sized(t) && OnlyFade(t.keys, Step(t, ev).keys)
  {
    InvSized(t);
    hide Inv, PauseInv, EtaOk, Notify, RemoveJob, RemoveDb, Pass;
    match ev
    case Notified(row, newRef) => NotifyFades(t, row, newRef);
    case Removed(uuid) => RemoveJobKeeps(t, uuid);
    case RemovedDb(db) => RemoveDbKeeps(t, db, t.byUuid.Keys);
    case Passed(now) => PassFades(t, 0, now);
    case NewChannel(_, _, _, _) =>
    case Collected(_) =>
  }

  lemma {:induction false} RunFades(t: Tree, evs: seq<Event>)
    requires Good(t) && Sized(t) && AllAllowed(t, evs)
    ensures OnlyFade(t.keys, Run(t, evs).keys)
    decreases |evs|
  {
    hide Good, Step, Allowed;
    if evs != [] {
      StepKeepsGood(t, evs[0]);
      StepFades(t, evs[0]);
      RunFades(Step(t, evs[0]), evs[1..]);
      FadeOn(t.keys, Step(t, evs[0]).keys, Run(t, evs).keys);
    }
  }

  predicate InDueHeap(t: Tree, r: Ref) { exists j :: 0 <= j < |t.chans| && r in t.chans[j].due.known }

  predicate InEtaHeap(t: Tree, r: Ref) { exists j :: 0 <= j < |t.chans| && r in t.chans[j].eta.known }

  lemma HeapsTell(t: Tree, r: Ref)
    requires Inv(t)
    ensures InDueHeap(t, r) ==> r in t.keys && t.keys[r].eta.None?
    ensures InEtaHeap(t, r) ==> r in t.keys && t.keys[r].eta.Some?
  {
    if j :| 0 <= j < |t.chans| && r in t.chans[j].due.known { assert ChanOk(t, j); }
    if j :| 0 <= j < |t.chans| && r in t.chans[j].eta.known { assert ChanOk(t, j); }
  }

  /** Through any run, an object that sits in a due heap, or in an eta heap before and after, has
      the key it had. */
  lemma RunKeepsHeapKeys(t: Tree, evs: seq<Event>, r: Ref)
    requires Good(t) && Sized(t) && AllAllowed(t, evs)
    requires InDueHeap(t, r) || (InEtaHeap(t, r) && InEtaHeap(Run(t, evs), r))
    ensures KeyOf(Run(t, evs).keys, r) == KeyOf(t.keys, r)
  {
    RunFades(t, evs);
    RunKeepsGood(t, evs);
    HeapsTell(t, r);
    HeapsTell(Run(t, evs), r);
  }
}
