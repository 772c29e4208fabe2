/**
 The channels of the job runner as values: one channel's queue and drain, the tree of
 channels, the scheduling pass that pulls jobs up the tree, the wakeup time and `notify`.

 Channels are numbered in creation order, so a parent's number is below its children's;
 channel 0 is the root. Nothing here has a precondition beyond "this channel exists".
 */
module ChannelTree {
  import opened Options
  import opened JobQueue

  type Cid = nat
  type Uuid = nat
  type Db = nat

  /** `capacity`: `None` and 0 both mean unlimited. `pause` is `_pause_until`, 0 when not paused. */
  datatype Chan = Chan(
    capacity: Option<int>, throttle: int, sequential: bool,
    due: PQ, eta: PQ, running: set<Ref>, failed: set<Ref>, pause: Time)

  // ---------------------------------------------------------------------- ChannelQueue

  predicate HasEta(keys: Keys, r: Ref) {
    KeyOf(keys, r).eta.Some? && KeyOf(keys, r).eta.value != 0.0
  }

  function EtaOf(keys: Keys, r: Ref): Time {
    if KeyOf(keys, r).eta.Some? then KeyOf(keys, r).eta.value else 0.0
  }

  function RankOf(keys: Keys, r: Ref): Rank { KeyOf(keys, r).rank }

  function SetNoEta(keys: Keys, r: Ref): Keys { keys[r := Key(None, RankOf(keys, r))] }

  function Enqueue(c: Chan, keys: Keys, r: Ref): Chan {
    if HasEta(keys, r) then c.(eta := c.eta.Add(r)) else c.(due := c.due.Add(r))
  }

  function Unqueue(c: Chan, r: Ref): Chan {
    c.(eta := c.eta.Remove(r), due := c.due.Remove(r))
  }

  predicate InQueue(c: Chan, r: Ref) { c.eta.Contains(r) || c.due.Contains(r) }

  /** The loop of `ChannelQueue.pop`: jobs whose eta is past lose it and join the due heap. */
  function Release(c: Chan, keys: Keys, now: Time): (r: (Chan, Keys))
    ensures |r.0.due.known| + |r.0.eta.known| <= |c.due.known| + |c.eta.known|
    ensures r.0 == c.(due := r.0.due, eta := r.0.eta)
    decreases |c.eta.known|
  {
    var e := c.eta.Trim(keys);
    SubsetSize(e.known, c.eta.known);
    var head := c.eta.Peek(keys);
    if c.eta.Len() == 0 then (c, keys)
    else if head.None? || EtaOf(keys, head.value) > now then (c.(eta := e), keys)
    else
      var (e', j) := e.Pop(keys);
      if j.None? then (c.(eta := e), keys)
      else Release(c.(eta := e', due := c.due.Add(j.value)), SetNoEta(keys, j.value), now)
  }

  /** A sequential queue waits when its earliest deferred job outranks its first due job. */
  predicate Waits(c: Chan, keys: Keys) {
    && c.sequential && c.eta.Len() != 0 && c.due.Len() != 0
    && c.eta.Peek(keys).Some? && c.due.Peek(keys).Some?
    && RankLess(RankOf(keys, c.eta.Peek(keys).value), RankOf(keys, c.due.Peek(keys).value))
  }

  function PopJob(c: Chan, keys: Keys, now: Time): (r: (Chan, Keys, Option<Ref>))
    ensures r.0 == c.(due := r.0.due, eta := r.0.eta)
    ensures r.2.Some? ==> |r.0.due.known| + |r.0.eta.known| < |c.due.known| + |c.eta.known|
  {
    var (c1, keys1) := Release(c, keys, now);
    if Waits(c1, keys1) then
      (c1.(eta := c1.eta.Trim(keys1), due := c1.due.Trim(keys1)), keys1, None)
    else
      // the sequential test peeks at the heads it looks at
      var both := c1.sequential && c1.eta.Len() != 0 && c1.due.Len() != 0;
      var c2 := if both then c1.(eta := c1.eta.Trim(keys1), due := c1.due.Trim(keys1)) else c1;
      SubsetSize(c2.eta.known, c1.eta.known);
      SubsetSize(c2.due.known, c1.due.known);
      var (d, j) := c2.due.Pop(keys1);
      (c2.(due := d), keys1, j)
  }

  // --------------------------------------------------------------------------- Channel

  predicate Unlimited(c: Chan) { c.capacity.None? || c.capacity.value == 0 }

  predicate HasCapacity(c: Chan) {
    if c.sequential && c.failed != {} then false
    else Unlimited(c) || |c.running| < c.capacity.value
  }

  function DrainLoop(c: Chan, keys: Keys, now: Time): (Chan, Keys, seq<Ref>)
    decreases |c.due.known| + |c.eta.known|
  {
    if !HasCapacity(c) then (c, keys, [])
    else
      var (c1, keys1, j) := PopJob(c, keys, now);
      if j.None? then (c1, keys1, [])
      else
        var c2 := c1.(running := c1.running + {j.value});
        if c.throttle != 0 then (c2.(pause := now + c.throttle as real), keys1, [j.value])
        else
          var (c3, keys3, ys) := DrainLoop(c2, keys1, now);
          (c3, keys3, [j.value] + ys)
  }

  /** The part of `get_jobs_to_run` that follows the children: the jobs this channel yields. */
  function Drain(c: Chan, keys: Keys, now: Time): (Chan, Keys, seq<Ref>) {
    if c.throttle != 0 && c.pause != 0.0 then
      if now < c.pause then (c, keys, []) else DrainLoop(c.(pause := 0.0), keys, now)
    else DrainLoop(c, keys, now)
  }

  // ------------------------------------------------------------------------------ tree

  datatype Info = Info(db: Db, chan: Cid, uuid: Uuid)

  /** A record of every job a channel hands over, in order. */
  datatype Yield = Yield(chan: Cid, time: Time, job: Ref)

  /** `info` and `keys` describe every job object created so far; `byUuid` is `_jobs_by_uuid`. */
  datatype Tree = Tree(
    parents: seq<Cid>, chans: seq<Chan>,
    info: map<Ref, Info>, keys: Keys, byUuid: map<Uuid, Ref>,
    log: seq<Yield>)

  predicate Shape(parents: seq<Cid>) {
    |parents| > 0 && forall i :: 0 < i < |parents| ==> parents[i] < i
  }

  /** The tree has as many channels as parents; every other clause is an invariant, not a guard. */
  predicate Sized(t: Tree) { |t.parents| == |t.chans| && Shape(t.parents) }

  predicate At(t: Tree, i: Cid) { Sized(t) && i < |t.chans| }

  function Put(t: Tree, i: Cid, c: Chan): (t': Tree)
    requires At(t, i)
    ensures Sized(t') && |t'.chans| == |t.chans| && t'.parents == t.parents
  {
    t.(chans := t.chans[i := c])
  }

  function LogOf(i: Cid, now: Time, ys: seq<Ref>): seq<Yield> {
    seq(|ys|, k requires 0 <= k < |ys| => Yield(i, now, ys[k]))
  }

  function DrainAt(t: Tree, i: Cid, now: Time): (r: (Tree, seq<Ref>))
    requires At(t, i)
    ensures Sized(r.0) && |r.0.chans| == |t.chans| && r.0.parents == t.parents
  {
    var (c, keys, ys) := Drain(t.chans[i], t.keys, now);
    (Put(t, i, c).(keys := keys, log := t.log + LogOf(i, now, ys)), ys)
  }

  function EnqueueAll(t: Tree, i: Cid, ys: seq<Ref>): (t': Tree)
    requires At(t, i)
    ensures Sized(t') && |t'.chans| == |t.chans| && t'.parents == t.parents
    decreases |ys|
  {
    if ys == [] then t
    else EnqueueAll(Put(t, i, Enqueue(t.chans[i], t.keys, ys[0])), i, ys[1..])
  }

  /** `Channel.get_jobs_to_run`, fully consumed: children first, then this channel's queue. */
  function Pass(t: Tree, i: Cid, now: Time): (r: (Tree, seq<Ref>))
    requires At(t, i)
    ensures Sized(r.0) && |r.0.chans| == |t.chans| && r.0.parents == t.parents
    decreases |t.chans| - i, 1, 0
  {
    DrainAt(PassChildren(t, i, i + 1, now), i, now)
  }

  function PassChildren(t: Tree, i: Cid, j: Cid, now: Time): (t': Tree)
    requires At(t, i) && i < j <= |t.chans|
    ensures Sized(t') && |t'.chans| == |t.chans| && t'.parents == t.parents
    decreases |t.chans| - i, 0, |t.chans| - j
  {
    if j == |t.chans| then t
    else if t.parents[j] == i then
      var (t1, ys) := Pass(t, j, now);
      PassChildren(EnqueueAll(t1, i, ys), i, j + 1, now)
    else PassChildren(t, i, j + 1, now)
  }

  // --------------------------------------------------------------------------- wakeup

  /** 0 stands for "no wakeup requested". */
  function Sooner(w: Time, x: Time): Time {
    if w == 0.0 then x else if w <= x then w else x
  }

  function QueueWakeup(c: Chan, keys: Keys, w: Time): Time {
    if c.eta.Len() == 0 || c.eta.Peek(keys).None? then w
    else Sooner(w, EtaOf(keys, c.eta.Peek(keys).value))
  }

  function Wakeup(t: Tree, i: Cid, w: Time): Time
    requires At(t, i)
    decreases |t.chans| - i, 1, 0
  {
    var c := t.chans[i];
    if !HasCapacity(c) then w
    else if c.pause != 0.0 then Sooner(w, c.pause)
    else WakeupChildren(t, i, i + 1, QueueWakeup(c, t.keys, w))
  }

  function WakeupChildren(t: Tree, i: Cid, j: Cid, w: Time): Time
    requires At(t, i) && i < j <= |t.chans|
    decreases |t.chans| - i, 0, |t.chans| - j
  {
    if j == |t.chans| then w
    else if t.parents[j] == i then WakeupChildren(t, i, j + 1, Wakeup(t, j, w))
    else WakeupChildren(t, i, j + 1, w)
  }

  /** What asking for the wakeup time leaves behind: the eta heaps it peeked at are trimmed. */
  function Look(t: Tree, i: Cid): (t': Tree)
    requires At(t, i)
    ensures Sized(t') && |t'.chans| == |t.chans| && t'.parents == t.parents
    decreases |t.chans| - i, 1, 0
  {
    var c := t.chans[i];
    if !HasCapacity(c) || c.pause != 0.0 then t
    else LookChildren(Put(t, i, if c.eta.Len() == 0 then c else c.(eta := c.eta.Trim(t.keys))), i, i + 1)
  }

  function LookChildren(t: Tree, i: Cid, j: Cid): (t': Tree)
    requires At(t, i) && i < j <= |t.chans|
    ensures Sized(t') && |t'.chans| == |t.chans| && t'.parents == t.parents
    decreases |t.chans| - i, 0, |t.chans| - j
  {
    if j == |t.chans| then t
    else if t.parents[j] == i then LookChildren(Look(t, j), i, j + 1)
    else LookChildren(t, i, j + 1)
  }

  // ------------------------------------------------------------------ state transitions

  function DropFrom(c: Chan, r: Ref): Chan {
    Unqueue(c, r).(running := c.running - {r}, failed := c.failed - {r})
  }

  /** `Channel.remove`: the channel and all its ancestors. */
  function RemoveUp(t: Tree, i: Cid, r: Ref): (t': Tree)
    requires At(t, i)
    ensures Sized(t') && |t'.chans| == |t.chans| && t'.parents == t.parents
    decreases i
  {
    var t1 := Put(t, i, DropFrom(t.chans[i], r));
    if i == 0 then t1 else RemoveUp(t1, t.parents[i], r)
  }

  function RemoveAbove(t: Tree, i: Cid, r: Ref): (t': Tree)
    requires At(t, i)
    ensures Sized(t') && |t'.chans| == |t.chans| && t'.parents == t.parents
  {
    if i == 0 then t else RemoveUp(t, t.parents[i], r)
  }

  function SetPending(t: Tree, i: Cid, r: Ref): (t': Tree)
    requires At(t, i)
    ensures Sized(t') && |t'.chans| == |t.chans| && t'.parents == t.parents
  {
    var c := t.chans[i];
    if InQueue(c, r) then t
    else
      var c1 := Enqueue(c, t.keys, r);
      RemoveAbove(Put(t, i, c1.(running := c.running - {r}, failed := c.failed - {r})), i, r)
  }

  function SetRunning(t: Tree, i: Cid, r: Ref): (t': Tree)
    requires At(t, i)
    ensures Sized(t') && |t'.chans| == |t.chans| && t'.parents == t.parents
    decreases i
  {
    var c := t.chans[i];
    if r in c.running then t
    else
      var t1 := Put(t, i, Unqueue(c, r).(running := c.running + {r}, failed := c.failed - {r}));
      if i == 0 then t1 else SetRunning(t1, t.parents[i], r)
  }

  function SetFailed(t: Tree, i: Cid, r: Ref): (t': Tree)
    requires At(t, i)
    ensures Sized(t') && |t'.chans| == |t.chans| && t'.parents == t.parents
  {
    var c := t.chans[i];
    if r in c.failed then t
    else RemoveAbove(Put(t, i, Unqueue(c, r).(running := c.running - {r}, failed := c.failed + {r})), i, r)
  }

  datatype JobState = WaitDependencies | Pending | Enqueued | Started | Done | Cancelled | Failed

  /** One row of the job table as the runner reads it. */
  datatype Row = Row(db: Db, chan: Cid, uuid: Uuid, rank: Rank, eta: Option<Time>, state: JobState)

  /** A new job object; `r` is its identity, which no earlier object has. */
  function Create(t: Tree, row: Row, r: Ref): (t': Tree)
    ensures Sized(t) ==> Sized(t') && |t'.chans| == |t.chans| && t'.parents == t.parents
  {
    t.(info := t.info[r := Info(row.db, row.chan, row.uuid)],
       keys := t.keys[r := Key(row.eta, row.rank)],
       byUuid := t.byUuid[row.uuid := r])
  }

  /** `ChannelManager.remove_job`. */
  function RemoveJob(t: Tree, uuid: Uuid): (t': Tree)
    requires Sized(t)
    ensures Sized(t') && |t'.chans| == |t.chans| && t'.parents == t.parents
  {
    if uuid in t.byUuid && t.byUuid[uuid] in t.info && t.info[t.byUuid[uuid]].chan < |t.chans| then
      var r := t.byUuid[uuid];
      RemoveUp(t, t.info[r].chan, r).(byUuid := t.byUuid - {uuid})
    else t
  }

  predicate Reschedules(t: Tree, r: Ref, row: Row) {
    || row.rank.sequence != RankOf(t.keys, r).sequence
    || row.rank.priority != RankOf(t.keys, r).priority
    || row.eta != KeyOf(t.keys, r).eta
    || (r in t.info && row.chan != t.info[r].chan)
  }

  /** The object that stands for the row's uuid after the property checks of `notify`. */
  function Refreshed(t: Tree, row: Row, newRef: Ref): (r: (Tree, Ref))
    requires Sized(t)
    ensures Sized(r.0) && |r.0.chans| == |t.chans| && r.0.parents == t.parents
  {
    if row.uuid in t.byUuid then
      var r := t.byUuid[row.uuid];
      if Reschedules(t, r, row) then (Create(RemoveJob(t, row.uuid), row, newRef), newRef) else (t, r)
    else (Create(t, row, newRef), newRef)
  }

  /** The two asserts of `notify`: database and creation date never change. */
  predicate Consistent(t: Tree, row: Row) {
    row.uuid in t.byUuid ==>
      var r := t.byUuid[row.uuid];
      r in t.info && t.info[r].db == row.db && RankOf(t.keys, r).created == row.rank.created
  }

  function Notify(t: Tree, row: Row, newRef: Ref): (t': Tree)
    requires At(t, row.chan)
    ensures Sized(t') && |t'.chans| == |t.chans| && t'.parents == t.parents
  {
    if !Consistent(t, row) then t  // AssertionError, raised before anything is changed
    else
      var (t1, r) := Refreshed(t, row, newRef);
      match row.state
      case Done => RemoveUp(t1, row.chan, r)
      case Cancelled => RemoveUp(t1, row.chan, r)
      case Pending => SetPending(t1, row.chan, r)
      case Enqueued => SetRunning(t1, row.chan, r)
      case Started => SetRunning(t1, row.chan, r)
      case Failed => SetFailed(t1, row.chan, r)
      case WaitDependencies => t1
  }

  /** `remove_db`, one job at a time. */
  function RemoveDb(t: Tree, db: Db, todo: set<Uuid>): (t': Tree)
    requires Sized(t)
    ensures Sized(t') && |t'.chans| == |t.chans| && t'.parents == t.parents
    decreases |todo|
  {
    if todo == {} then t
    else
      MinExists(todo, map[]);
      var u := Min(todo, map[]);
      var hit := u in t.byUuid && t.byUuid[u] in t.info && t.info[t.byUuid[u]].db == db;
      RemoveDb(if hit then RemoveJob(t, u) else t, db, todo - {u})
  }

  /** `Channel.__init__` for a new child. */
  function AddChannel(t: Tree, parent: Cid, capacity: Option<int>, throttle: int, sequential: bool): (t': Tree)
    requires At(t, parent)
    ensures Sized(t') && |t'.chans| == |t.chans| + 1
  {
    var none := PQ({}, {});
    t.(parents := t.parents + [parent],
       chans := t.chans + [Chan(capacity, throttle, sequential, none, none, {}, {}, 0.0)])
  }

  /** The weak dictionary drops an entry once nothing holds the object any more. */
  predicate Held(t: Tree, r: Ref) {
    exists i :: 0 <= i < |t.chans| &&
      (var c := t.chans[i]; r in c.due.known || r in c.eta.known || r in c.running || r in c.failed)
  }

  function Forget(t: Tree, uuid: Uuid): (t': Tree)
    ensures Sized(t) ==> Sized(t') && |t'.chans| == |t.chans| && t'.parents == t.parents
  {
    if uuid in t.byUuid && !Held(t, t.byUuid[uuid]) then t.(byUuid := t.byUuid - {uuid}) else t
  }
}
