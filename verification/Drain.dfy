/**
 What draining one channel does, stated on the live contents of its queue: which jobs leave,
 in which order, how capacity and throttle bound them, and when a drain must come up empty.
 */
module ChannelDrain {
  import opened Options
  import opened JobQueue
  import opened ChannelTree

  function Members(ys: seq<Ref>): set<Ref> { set r | r in ys }

  predicate Distinct(ys: seq<Ref>) {
    forall i, j :: 0 <= i < j < |ys| ==> ys[i] != ys[j]
  }

  /** The jobs waiting in the channel's queue, deferred or not. */
  function Queued(c: Chan): set<Ref> { c.due.Live() + c.eta.Live() }

  /** The deferred jobs whose eta has been reached. */
  function Ready(c: Chan, keys: Keys, now: Time): set<Ref> {
    set r | r in c.eta.Live() && EtaOf(keys, r) <= now
  }

  /** The jobs that may leave at `now`: no eta, or an eta that has been reached. */
  function Eligible(c: Chan, keys: Keys, now: Time): set<Ref> { c.due.Live() + Ready(c, keys, now) }

  /** Heaps are never mixed: an eta heap holds jobs with an eta, a due heap jobs without. */
  predicate QueueOk(c: Chan, keys: Keys) {
    && c.due.Valid() && c.eta.Valid()
    && (forall r :: r in c.eta.known ==> r in keys && keys[r].eta.Some? && keys[r].eta.value > 0.0)
    && (forall r :: r in c.due.known ==> r in keys && keys[r].eta.None?)
  }

  /** `keys'` differs from `keys` only in that members of `gone` lost their eta. */
  ghost predicate LostEta(keys: Keys, keys': Keys, gone: set<Ref>) {
    && keys'.Keys == keys.Keys
    && forall r :: r in keys ==> keys'[r] == if r in gone then Key(None, keys[r].rank) else keys[r]
  }

  // ------------------------------------------------------------------ releasing due jobs

  lemma ValidParts(c: Chan, keys: Keys)
    requires QueueOk(c, keys)
    ensures c.eta.Valid() && c.due.Valid()
  {
  }

  lemma EmptyQueue(q: PQ, keys: Keys)
    requires q.Valid()
    ensures q.Len() == 0 <==> q.Live() == {}
  {
    LenIsSize(q);
  }

  ghost predicate Released(c: Chan, keys: Keys, now: Time, c': Chan, keys': Keys) {
    && QueueOk(c', keys')
    && LostEta(keys, keys', Ready(c, keys, now))
    && c'.eta.Live() == c.eta.Live() - Ready(c, keys, now)
    && c'.due.Live() == Eligible(c, keys, now)
    && c'.eta.known <= c.eta.known
    && c'.due.known <= c.due.known + Ready(c, keys, now)
  }

  lemma NoneReady(c: Chan, keys: Keys, now: Time)
    requires QueueOk(c, keys)
    requires c.eta.Live() == {} || EtaOf(keys, Min(c.eta.Live(), keys)) > now
    ensures Ready(c, keys, now) == {}
  {
    forall r | r in c.eta.Live() ensures EtaOf(keys, r) > now {
      var head := Min(c.eta.Live(), keys);
      assert r == head || Before(keys, head, r);
    }
  }

  lemma ReleasedNone(c: Chan, keys: Keys, now: Time, e: PQ)
    requires QueueOk(c, keys) && Ready(c, keys, now) == {}
    requires e.Valid() && e.Live() == c.eta.Live() && e.known <= c.eta.known
    ensures Released(c, keys, now, c.(eta := e), keys)
  {
  }

  /** Taking the earliest deferred job out of the eta heap and into the due heap. */
  ghost predicate MovedOne(c: Chan, keys: Keys, h: Ref, c1: Chan, keys1: Keys) {
    && h in c.eta.Live() && c1.eta.Valid() && c1.eta.Live() == c.eta.Live() - {h} && h !in c1.eta.known
    && c1.eta.known <= c.eta.known && c1.due == c.due.Add(h) && keys1 == SetNoEta(keys, h)
  }

  lemma MovedOneOk(c: Chan, keys: Keys, h: Ref, c1: Chan, keys1: Keys)
    requires QueueOk(c, keys) && MovedOne(c, keys, h, c1, keys1)
    ensures QueueOk(c1, keys1) && c1.due.Live() == c.due.Live() + {h}
    ensures LostEta(keys, keys1, {h})
  {
    assert h in keys;
    AddRemoveAreSetOps(c.due, h);
  }

  lemma ReleasedStep(c: Chan, keys: Keys, now: Time, h: Ref, c1: Chan, keys1: Keys, c': Chan, keys': Keys)
    requires QueueOk(c, keys) && EtaOf(keys, h) <= now && MovedOne(c, keys, h, c1, keys1)
    requires Released(c1, keys1, now, c', keys')
    ensures Released(c, keys, now, c', keys')
  {
    MovedOneOk(c, keys, h, c1, keys1);
    assert Ready(c, keys, now) == Ready(c1, keys1, now) + {h};
  }

  lemma {:induction false} ReleaseEffect(c: Chan, keys: Keys, now: Time)
    requires QueueOk(c, keys)
    ensures Released(c, keys, now, Release(c, keys, now).0, Release(c, keys, now).1)
    decreases |c.eta.known|
  {
    hide Released, Ready, RankLess, QueueOk;
    assert c.eta.Valid() by { ValidParts(c, keys); }
    EmptyQueue(c.eta, keys);
    TrimKeepsLive(c.eta, keys);
    var e := c.eta.Trim(keys);
    if c.eta.Live() == {} {
      NoneReady(c, keys, now);
      ReleasedNone(c, keys, now, c.eta);
    } else {
      var h := Min(c.eta.Live(), keys);
      if EtaOf(keys, h) > now {
        NoneReady(c, keys, now);
        ReleasedNone(c, keys, now, e);
      } else {
        PopTakesMin(e, keys);
        SubsetSize(e.known, c.eta.known);
        var c1 := c.(eta := e.Pop(keys).0, due := c.due.Add(h));
        var keys1 := SetNoEta(keys, h);
        MovedOneOk(c, keys, h, c1, keys1);
        ReleaseEffect(c1, keys1, now);
        ReleasedStep(c, keys, now, h, c1, keys1, Release(c1, keys1, now).0, Release(c1, keys1, now).1);
      }
    }
  }

  /** Popping takes the first eligible job, unless a sequential queue has to wait. */
  ghost predicate Popped(c: Chan, keys: Keys, now: Time, c': Chan, keys': Keys, o: Option<Ref>) {
    && QueueOk(c', keys')
    && c' == c.(due := c'.due, eta := c'.eta)
    && LostEta(keys, keys', Ready(c, keys, now))
    && c'.eta.Live() == c.eta.Live() - Ready(c, keys, now)
    && c'.eta.known <= c.eta.known
    && c'.due.known <= c.due.known + Ready(c, keys, now)
    && var ok := Eligible(c, keys, now);
       match o
       case None => c'.due.Live() == ok && (ok == {} || Blocked(c', keys'))
       case Some(j) => ok != {} && j == Min(ok, keys') && c'.due.Live() == ok - {j} && !Outranked(c', keys', j)
  }

  /** The sequential rule for one due job. */
  predicate Outranked(c: Chan, keys: Keys, j: Ref) {
    c.sequential && c.eta.Live() != {} && RankLess(RankOf(keys, Min(c.eta.Live(), keys)), RankOf(keys, j))
  }

  lemma PoppedNone(c: Chan, keys: Keys, now: Time, c1: Chan, keys1: Keys, c2: Chan)
    requires QueueOk(c, keys) && Released(c, keys, now, c1, keys1) && c1 == c.(due := c1.due, eta := c1.eta)
    requires Trimmed(c1, c2) && (c2.due.Live() == {} || Blocked(c2, keys1))
    ensures Popped(c, keys, now, c2, keys1, None)
  {
  }

  lemma PoppedSome(c: Chan, keys: Keys, now: Time, c1: Chan, keys1: Keys, c2: Chan, d: PQ, j: Ref)
    requires QueueOk(c, keys) && Released(c, keys, now, c1, keys1) && c1 == c.(due := c1.due, eta := c1.eta)
    requires Trimmed(c1, c2) && d.Valid() && d.known <= c2.due.known
    requires c2.due.Live() != {} && j == Min(c2.due.Live(), keys1) && d.Live() == c2.due.Live() - {j}
    requires !Outranked(c2, keys1, j)
    ensures Popped(c, keys, now, c2.(due := d), keys1, Some(j))
  {
  }

  /** Same live contents, possibly fewer removed objects left in the heaps. */
  predicate Trimmed(c: Chan, c': Chan) {
    && c' == c.(due := c'.due, eta := c'.eta)
    && c'.due.Valid() && c'.eta.Valid()
    && c'.due.Live() == c.due.Live() && c'.due.known <= c.due.known
    && c'.eta.Live() == c.eta.Live() && c'.eta.known <= c.eta.known
  }

  lemma PopEffect(c: Chan, keys: Keys, now: Time)
    requires QueueOk(c, keys)
    ensures var (c', keys', o) := PopJob(c, keys, now); Popped(c, keys, now, c', keys', o)
  {
    hide Popped, Ready, LostEta, Eligible, RankLess, KeyLess, Release;
    ReleaseEffect(c, keys, now);
    var (c1, keys1) := Release(c, keys, now);
    EmptyQueue(c1.eta, keys1);
    EmptyQueue(c1.due, keys1);
    TrimKeepsLive(c1.eta, keys1);
    TrimKeepsLive(c1.due, keys1);
    var trimmed := c1.(eta := c1.eta.Trim(keys1), due := c1.due.Trim(keys1));
    var both := c1.sequential && c1.eta.Len() != 0 && c1.due.Len() != 0;
    var c2 := if both then trimmed else c1;
    assert Trimmed(c1, c2);
    PopTakesMin(c2.due, keys1);
    if Waits(c1, keys1) {
      PoppedNone(c, keys, now, c1, keys1, trimmed);
    } else if c2.due.Live() == {} {
      PoppedNone(c, keys, now, c1, keys1, c2.(due := c2.due.Pop(keys1).0));
    } else {
      PoppedSome(c, keys, now, c1, keys1, c2, c2.due.Pop(keys1).0, Min(c2.due.Live(), keys1));
    }
  }

  /** The sequential rule for the whole queue: its first due job is outranked. */
  predicate Blocked(c: Chan, keys: Keys) {
    c.due.Live() != {} && Outranked(c, keys, Min(c.due.Live(), keys))
  }

  // ----------------------------------------------------------------------- draining

  /** The summary of a drain used by every tree-level proof. */
  ghost predicate Drained(c: Chan, keys: Keys, c': Chan, keys': Keys, ys: seq<Ref>) {
    && c' == c.(due := c'.due, eta := c'.eta, running := c.running + Members(ys), pause := c'.pause)
    && QueueOk(c', keys')
    && LostEta(keys, keys', c.eta.Live() - c'.eta.Live())
    && Distinct(ys) && Members(ys) <= Queued(c)
    && Queued(c') == Queued(c) - Members(ys)
    && c'.eta.Live() <= c.eta.Live() - Members(ys)
    && c'.eta.known <= c.eta.known
    && c'.due.known <= c.due.known + c.eta.Live()
  }

  /** Whatever leaves the queue has no eta any more. */
  lemma DrainedNoEta(c: Chan, keys: Keys, c': Chan, keys': Keys, ys: seq<Ref>, r: Ref)
    requires QueueOk(c, keys) && Drained(c, keys, c', keys', ys) && r in ys
    ensures r in keys' && keys'[r].eta.None?
  {
    assert r in Members(ys);
  }

  lemma DrainedNothing(c: Chan, keys: Keys)
    requires QueueOk(c, keys)
    ensures Drained(c, keys, c, keys, [])
  {
    assert Members([]) == {};
  }

  lemma DrainedEmptyPop(c: Chan, keys: Keys, now: Time, c': Chan, keys': Keys)
    requires QueueOk(c, keys) && Popped(c, keys, now, c', keys', None)
    ensures Drained(c, keys, c', keys', [])
  {
    assert Members([]) == {};
    assert c.eta.Live() - c'.eta.Live() == Ready(c, keys, now);
  }

  /** One popped job, marked running. */
  lemma DrainedOne(c: Chan, keys: Keys, now: Time, c1: Chan, keys1: Keys, j: Ref, p: Time)
    requires QueueOk(c, keys) && Popped(c, keys, now, c1, keys1, Some(j))
    ensures Drained(c, keys, c1.(running := c1.running + {j}, pause := p), keys1, [j])
  {
    assert Members([j]) == {j};
    assert c.eta.Live() - c1.eta.Live() == Ready(c, keys, now);
    assert j in keys1 && keys1[j].eta.None?;
    assert j !in c1.eta.known;
  }

  lemma DistinctConcat(a: seq<Ref>, b: seq<Ref>)
    requires Distinct(a) && Distinct(b) && Members(a) !! Members(b)
    ensures Distinct(a + b)
    ensures Members(a + b) == Members(a) + Members(b)
  {
    forall i, j | 0 <= i < j < |a + b| ensures (a + b)[i] != (a + b)[j] {
      if i < |a| <= j { assert a[i] in Members(a) && b[j - |a|] in Members(b); }
    }
  }

  lemma DrainedThen(c: Chan, keys: Keys, c1: Chan, keys1: Keys, ys1: seq<Ref>, c2: Chan, keys2: Keys, ys2: seq<Ref>)
    requires Drained(c, keys, c1, keys1, ys1) && Drained(c1, keys1, c2, keys2, ys2)
    ensures Drained(c, keys, c2, keys2, ys1 + ys2)
  {
    DistinctConcat(ys1, ys2);
    LostEtaThen(keys, keys1, keys2, c.eta.Live() - c1.eta.Live(), c1.eta.Live() - c2.eta.Live());
    assert c.eta.Live() - c2.eta.Live() == (c.eta.Live() - c1.eta.Live()) + (c1.eta.Live() - c2.eta.Live());
  }

  lemma LostEtaThen(keys: Keys, keys1: Keys, keys2: Keys, g1: set<Ref>, g2: set<Ref>)
    requires LostEta(keys, keys1, g1) && LostEta(keys1, keys2, g2)
    ensures LostEta(keys, keys2, g1 + g2)
  {
  }

  lemma {:induction false} DrainLoopEffect(c: Chan, keys: Keys, now: Time)
    requires QueueOk(c, keys)
    ensures var (c', keys', ys) := DrainLoop(c, keys, now); Drained(c, keys, c', keys', ys)
    decreases |c.due.known| + |c.eta.known|
  {
    hide Popped, Drained, PopJob;
    if !HasCapacity(c) {
      DrainedNothing(c, keys);
    } else {
      PopEffect(c, keys, now);
      var (c1, keys1, o) := PopJob(c, keys, now);
      match o
      case None => DrainedEmptyPop(c, keys, now, c1, keys1);
      case Some(j) =>
        DrainedOne(c, keys, now, c1, keys1, j, if c.throttle != 0 then now + c.throttle as real else c1.pause);
        if c.throttle == 0 {
          var c2 := c1.(running := c1.running + {j});
          DrainLoopEffect(c2, keys1, now);
          var (c3, keys3, ys) := DrainLoop(c2, keys1, now);
          DrainedThen(c, keys, c2, keys1, [j], c3, keys3, ys);
        }
    }
  }

  lemma DrainEffect(c: Chan, keys: Keys, now: Time)
    requires QueueOk(c, keys)
    ensures var (c', keys', ys) := Drain(c, keys, now); Drained(c, keys, c', keys', ys)
  {
    hide DrainLoop;
    DrainedNothing(c, keys);
    DrainLoopEffect(c, keys, now);
    DrainLoopEffect(c.(pause := 0.0), keys, now);
  }

  // ------------------------------------------------------------- the k smallest, in order

  /** How many more jobs the capacity lets in. */
  function Room(c: Chan): int
    requires c.capacity.Some?
  {
    if |c.running| < c.capacity.value then c.capacity.value - |c.running| else 0
  }

  function HowMany(c: Chan, ok: set<Ref>): int {
    if c.capacity == None || c.capacity == Some(0) || |ok| <= Room(c) then |ok| else Room(c)
  }

  /** Job `a` comes strictly before `b` in (priority, date_created, seq). */
  ghost predicate Precedes(keys: Keys, a: Ref, b: Ref) { TupleLess(AsTuple(RankOf(keys, a)), AsTuple(RankOf(keys, b))) }

  /** `ys` lists the |ys| first elements of `ok` in the order of `keys`. */
  ghost predicate Smallest(ys: seq<Ref>, ok: set<Ref>, keys: Keys) {
    && Members(ys) <= ok
    && (forall i, j :: 0 <= i < j < |ys| ==> Before(keys, ys[i], ys[j]))
    && (forall i, r :: 0 <= i < |ys| && r in ok && r !in Members(ys) ==> Before(keys, ys[i], r))
  }

  lemma SmallestCons(j: Ref, ys: seq<Ref>, ok: set<Ref>, keys: Keys)
    requires IsMin(ok, keys, j) && Smallest(ys, ok - {j}, keys)
    ensures Smallest([j] + ys, ok, keys)
  {
    var zs := [j] + ys;
    assert Members(zs) == {j} + Members(ys);
    forall i, k | 0 <= i < k < |zs| ensures Before(keys, zs[i], zs[k]) {
      assert zs[k] == ys[k - 1] && ys[k - 1] in Members(ys);
      if i > 0 { assert zs[i] == ys[i - 1]; }
    }
    forall i, r | 0 <= i < |zs| && r in ok && r !in Members(zs) ensures Before(keys, zs[i], r) {
      if i > 0 { assert zs[i] == ys[i - 1]; }
    }
  }

  /** After a pop nothing deferred is ready any more, so the keys of what is left are settled. */
  lemma AfterPop(c: Chan, keys: Keys, now: Time, c1: Chan, keys1: Keys, j: Ref)
    requires QueueOk(c, keys) && Popped(c, keys, now, c1, keys1, Some(j))
    ensures Ready(c1, keys1, now) == {}
    ensures Eligible(c1, keys1, now) == Eligible(c, keys, now) - {j}
  {
  }

  lemma {:induction false} DrainLoopSmallest(c: Chan, keys: Keys, now: Time)
    requires QueueOk(c, keys) && !c.sequential && c.throttle == 0 && c.running !! Queued(c)
    ensures var (c', keys', ys) := DrainLoop(c, keys, now);
            && Smallest(ys, Eligible(c, keys, now), keys')
            && |ys| == HowMany(c, Eligible(c, keys, now))
            && (HasCapacity(c) ==> LostEta(keys, keys', Ready(c, keys, now)))
    decreases |c.due.known| + |c.eta.known|
  {
    hide PopJob, Ready, Smallest, LostEta, KeyLess, QueueOk, Queued, HowMany;
    var ok := Eligible(c, keys, now);
    if !HasCapacity(c) {
      SmallestNone(ok, keys);
      NoRoom(c, ok);
    } else {
      PopEffect(c, keys, now);
      var (c1, keys1, o) := PopJob(c, keys, now);
      match o
      case None =>
        SmallestNone(ok, keys1);
        NoRoom(c, ok);
      case Some(j) =>
        var c2 := c1.(running := c1.running + {j});
        AfterPop(c, keys, now, c1, keys1, j);
        OnePopped(c, keys, now, c1, keys1, j);
        DrainLoopSmallest(c2, keys1, now);
        var (c3, keys3, ys) := DrainLoop(c2, keys1, now);
        assert Eligible(c2, keys1, now) == ok - {j};
        SmallestRest(c2, keys1, now, j, ok);
        SmallestCons(j, ys, ok, keys3);
        OneMore(c, c2, ok, j);
    }
  }

  lemma NoRoom(c: Chan, ok: set<Ref>)
    requires !c.sequential && (!HasCapacity(c) || ok == {})
    ensures HowMany(c, ok) == 0
  {
  }

  lemma OneMore(c: Chan, c2: Chan, ok: set<Ref>, j: Ref)
    requires HasCapacity(c) && c2.capacity == c.capacity && |c2.running| == |c.running| + 1 && j in ok
    ensures HowMany(c, ok) == 1 + HowMany(c2, ok - {j})
  {
    assert |ok - {j}| == |ok| - 1;
  }

  lemma SmallestNone(ok: set<Ref>, keys: Keys)
    ensures Smallest([], ok, keys)
  {
  }

  lemma OnePopped(c: Chan, keys: Keys, now: Time, c1: Chan, keys1: Keys, j: Ref)
    requires QueueOk(c, keys) && Popped(c, keys, now, c1, keys1, Some(j)) && c.running !! Queued(c)
    ensures var c2 := c1.(running := c1.running + {j});
            && QueueOk(c2, keys1) && c2.running !! Queued(c2) && |c2.running| == |c.running| + 1
            && Ready(c2, keys1, now) == Ready(c1, keys1, now)
            && Eligible(c2, keys1, now) == Eligible(c1, keys1, now)
  {
    assert j in Queued(c);
  }

  lemma SmallestRest(c2: Chan, keys1: Keys, now: Time, j: Ref, ok: set<Ref>)
    requires QueueOk(c2, keys1) && Ready(c2, keys1, now) == {} && IsMin(ok, keys1, j)
    requires var (c3, keys3, ys) := DrainLoop(c2, keys1, now); HasCapacity(c2) ==> LostEta(keys1, keys3, {})
    ensures var (c3, keys3, ys) := DrainLoop(c2, keys1, now);
            keys3 == keys1 && IsMin(ok, keys3, j)
  {
  }

  /**
   A pass of a non-sequential, unthrottled channel yields the k smallest eligible jobs in
   order, where k is the smaller of the free capacity and the number of eligible jobs.
   */
  lemma DrainYieldsSmallest(c: Chan, keys: Keys, now: Time)
    requires QueueOk(c, keys) && !c.sequential && c.throttle == 0 && c.running !! Queued(c)
    ensures var (c', keys', ys) := Drain(c, keys, now);
            var ok := Eligible(c, keys, now);
            && |ys| == HowMany(c, ok)
            && Members(ys) <= ok
            && (forall i, j :: 0 <= i < j < |ys| ==> !Precedes(keys, ys[j], ys[i]))
            && (forall i, r :: 0 <= i < |ys| && r in ok && r !in Members(ys) ==>
                  !Precedes(keys, r, ys[i]))
  {
    var (c', keys', ys) := Drain(c, keys, now);
    var ok := Eligible(c, keys, now);
    hide Drain, DrainLoop, Ready, Smallest, Eligible, QueueOk, Drained, LostEta, HasCapacity, RankLess, RankOf, KeyOf, Precedes;
    assert (c', keys', ys) == DrainLoop(c, keys, now) by { DrainUnthrottled(c, keys, now); }
    assert Smallest(ys, ok, keys') && |ys| == HowMany(c, ok) && (HasCapacity(c) ==> LostEta(keys, keys', Ready(c, keys, now)))
      by { DrainLoopSmallest(c, keys, now); }
    assert Drained(c, keys, c', keys', ys) by { DrainEffect(c, keys, now); }
    if !HasCapacity(c) { NothingWhenFull(c, keys, now); }
    EligibleLoseEta(c, keys, now, keys');
    SmallestByRank(c, keys, c', keys', ys, ok);
  }

  lemma NothingWhenFull(c: Chan, keys: Keys, now: Time)
    requires !HasCapacity(c)
    ensures Drain(c, keys, now).2 == []
  {
  }

  lemma EligibleLoseEta(c: Chan, keys: Keys, now: Time, keys': Keys)
    requires QueueOk(c, keys)
    ensures forall r :: r in Eligible(c, keys, now) ==> r in keys
    ensures LostEta(keys, keys', Ready(c, keys, now)) ==>
              forall r :: r in Eligible(c, keys, now) ==> r in keys' && keys'[r].eta.None?
  {
  }

  lemma DrainUnthrottled(c: Chan, keys: Keys, now: Time)
    requires c.throttle == 0
    ensures Drain(c, keys, now) == DrainLoop(c, keys, now)
  {
  }

  lemma SmallestByRank(c: Chan, keys: Keys, c': Chan, keys': Keys, ys: seq<Ref>, ok: set<Ref>)
    requires QueueOk(c, keys) && Drained(c, keys, c', keys', ys) && Smallest(ys, ok, keys')
    requires forall r :: r in ok ==> r in keys
    requires |ys| > 0 ==> forall r :: r in ok ==> r in keys' && keys'[r].eta.None?
    ensures Members(ys) <= ok
    ensures forall i, j :: 0 <= i < j < |ys| ==> !Precedes(keys, ys[j], ys[i])
    ensures forall i, r :: 0 <= i < |ys| && r in ok && r !in Members(ys) ==> !Precedes(keys, r, ys[i])
  {
    forall i | 0 <= i < |ys| ensures ys[i] in ok && keys'[ys[i]].eta.None? { assert ys[i] in Members(ys); }
    forall r | r in ok ensures RankOf(keys, r) == RankOf(keys', r) {}
    forall i, j | 0 <= i < j < |ys| ensures !Precedes(keys, ys[j], ys[i]) {
      assert Before(keys', ys[i], ys[j]);
      RankLessIsTupleOrder(RankOf(keys, ys[j]), RankOf(keys, ys[i]));
    }
    forall i, r | 0 <= i < |ys| && r in ok && r !in Members(ys) ensures !Precedes(keys, r, ys[i]) {
      assert Before(keys', ys[i], r);
      RankLessIsTupleOrder(RankOf(keys, r), RankOf(keys, ys[i]));
    }
  }

  // ------------------------------------------------------------------ capacity and throttle

  predicate Limited(c: Chan) { c.capacity.Some? && c.capacity.value > 0 }

  lemma {:induction false} DrainLoopWithinCapacity(c: Chan, keys: Keys, now: Time)
    requires Limited(c)
    ensures var (c', keys', ys) := DrainLoop(c, keys, now);
            |c'.running| <= c.capacity.value || c'.running == c.running
    decreases |c.due.known| + |c.eta.known|
  {
    hide PopJob;
    if HasCapacity(c) {
      var (c1, keys1, o) := PopJob(c, keys, now);
      if o.Some? {
        var c2 := c1.(running := c1.running + {o.value});
        if c.throttle == 0 { DrainLoopWithinCapacity(c2, keys1, now); }
      }
    }
  }

  /** A drain never takes a channel above its capacity and takes nothing into a full one. */
  lemma DrainWithinCapacity(c: Chan, keys: Keys, now: Time)
    requires Limited(c)
    ensures var (c', keys', ys) := Drain(c, keys, now);
            && (|c.running| <= c.capacity.value ==> |c'.running| <= c.capacity.value)
            && (|c.running| >= c.capacity.value ==> c'.running == c.running && ys == [])
  {
    hide DrainLoop;
    DrainLoopWithinCapacity(c, keys, now);
    DrainLoopWithinCapacity(c.(pause := 0.0), keys, now);
    if |c.running| >= c.capacity.value { NothingWhenFull(c, keys, now); FullKeepsRunning(c, keys, now); }
  }

  lemma FullKeepsRunning(c: Chan, keys: Keys, now: Time)
    requires !HasCapacity(c)
    ensures Drain(c, keys, now).0 == c || Drain(c, keys, now).0 == c.(pause := 0.0)
    ensures Drain(c, keys, now).1 == keys
  {
  }

  /** How a drain moves the pause of the channel. */
  lemma {:induction false} DrainLoopPause(c: Chan, keys: Keys, now: Time)
    ensures var (c', keys', ys) := DrainLoop(c, keys, now);
            && (c.throttle == 0 ==> c'.pause == c.pause)
            && (c.throttle != 0 ==> |ys| <= 1 && c'.pause == if ys == [] then c.pause else now + c.throttle as real)
            && c'.throttle == c.throttle
    decreases |c.due.known| + |c.eta.known|
  {
    hide PopJob;
    if HasCapacity(c) {
      var (c1, keys1, o) := PopJob(c, keys, now);
      if o.Some? && c.throttle == 0 {
        DrainLoopPause(c1.(running := c1.running + {o.value}), keys1, now);
      }
    }
  }

  lemma DrainPause(c: Chan, keys: Keys, now: Time)
    ensures var (c', keys', ys) := Drain(c, keys, now);
            && c'.throttle == c.throttle
            && (c.throttle == 0 ==> c'.pause == c.pause)
            && (c.throttle != 0 ==> |ys| <= 1)
            && (c.throttle != 0 && ys == [] ==> c'.pause == c.pause || (c'.pause == 0.0 && now >= c.pause))
            && (c.throttle != 0 && ys != [] ==> c'.pause == now + c.throttle as real && (c.pause == 0.0 || now >= c.pause))
  {
    hide DrainLoop;
    DrainLoopPause(c, keys, now);
    DrainLoopPause(c.(pause := 0.0), keys, now);
  }

  // ----------------------------------------------------------------- settled and quiet channels

  /** Nothing can be popped at `now`: no deferred job is ready, and what is due has to wait. */
  predicate Stuck(c: Chan, keys: Keys, now: Time) {
    && Ready(c, keys, now) == {}
    && (c.due.Live() == {} || Blocked(c, keys))
  }

  /** How a complete drain at `now` leaves a channel: full, paused beyond `now`, or stuck. */
  predicate Settled(c: Chan, keys: Keys, now: Time) {
    HasCapacity(c) ==>
      || (c.throttle != 0 && c.pause > now)
      || (c.pause == 0.0 && Stuck(c, keys, now))
  }

  predicate PauseOk(c: Chan) {
    c.throttle >= 0 && c.pause >= 0.0 && (c.pause != 0.0 ==> c.throttle != 0)
  }

  lemma PoppedNoneIsStuck(c: Chan, keys: Keys, now: Time, c': Chan, keys': Keys)
    requires QueueOk(c, keys) && Popped(c, keys, now, c', keys', None)
    ensures Stuck(c', keys', now)
  {
  }

  lemma {:induction false} DrainLoopSettles(c: Chan, keys: Keys, now: Time)
    requires QueueOk(c, keys) && PauseOk(c) && c.pause == 0.0 && now > 0.0
    ensures var (c', keys', ys) := DrainLoop(c, keys, now); Settled(c', keys', now) && PauseOk(c')
    decreases |c.due.known| + |c.eta.known|
  {
    hide PopJob, Popped, QueueOk, Stuck, HasCapacity;
    if HasCapacity(c) {
      PopEffect(c, keys, now);
      var (c1, keys1, o) := PopJob(c, keys, now);
      match o
      case None => PoppedNoneIsStuck(c, keys, now, c1, keys1);
      case Some(j) =>
        if c.throttle == 0 {
          var c2 := c1.(running := c1.running + {j});
          PoppedOk(c, keys, now, c1, keys1, j);
          DrainLoopSettles(c2, keys1, now);
        }
    }
  }

  lemma PoppedOk(c: Chan, keys: Keys, now: Time, c1: Chan, keys1: Keys, j: Ref)
    requires Popped(c, keys, now, c1, keys1, Some(j))
    ensures QueueOk(c1.(running := c1.running + {j}), keys1)
  {
  }

  /** Every complete drain settles its channel. */
  lemma DrainSettles(c: Chan, keys: Keys, now: Time)
    requires QueueOk(c, keys) && PauseOk(c) && now > 0.0
    ensures var (c', keys', ys) := Drain(c, keys, now); Settled(c', keys', now) && PauseOk(c')
  {
    hide DrainLoop, QueueOk, Stuck;
    if c.pause == 0.0 {
      DrainLoopSettles(c, keys, now);
    } else if now >= c.pause {
      assert QueueOk(c.(pause := 0.0), keys) by { SameQueueOk(c, c.(pause := 0.0), keys); }
      DrainLoopSettles(c.(pause := 0.0), keys, now);
    }
  }

  lemma SameQueueOk(c: Chan, c': Chan, keys: Keys)
    requires QueueOk(c, keys) && c'.due == c.due && c'.eta == c.eta
    ensures QueueOk(c', keys)
  {
  }

  /** A channel that yields nothing at `t` on its own account. */
  predicate Idle(c: Chan, keys: Keys, t: Time) {
    || !HasCapacity(c)
    || (c.throttle != 0 && c.pause != 0.0 && t < c.pause)
    || (c.pause == 0.0 && Stuck(c, keys, t))
  }

  /** Draining an idle channel yields nothing, changes no key, and leaves its contents alone. */
  lemma DrainIdle(c: Chan, keys: Keys, t: Time)
    requires QueueOk(c, keys) && Idle(c, keys, t)
    ensures var (c', keys', ys) := Drain(c, keys, t);
            && ys == [] && keys' == keys
            && Trimmed(c.(pause := c'.pause), c')
            && (HasCapacity(c) ==> c'.pause == c.pause)
            && (c'.pause == c.pause || c'.pause == 0.0)
  {
    hide PopJob, QueueOk, Stuck, HasCapacity;
    if !HasCapacity(c) {
      assert QueueOk(c.(pause := 0.0), keys) by { SameQueueOk(c, c.(pause := 0.0), keys); }
      TrimmedSelf(c, keys);
      TrimmedSelf(c.(pause := 0.0), keys);
      assert HasCapacity(c.(pause := 0.0)) == HasCapacity(c) by { PauseFree(c); }
    } else if c.pause == 0.0 && Stuck(c, keys, t) {
      PopEffect(c, keys, t);
      StuckPop(c, keys, t, PopJob(c, keys, t).0, PopJob(c, keys, t).1, PopJob(c, keys, t).2);
    } else {
      TrimmedSelf(c, keys);
    }
  }

  lemma PauseFree(c: Chan)
    ensures HasCapacity(c.(pause := 0.0)) == HasCapacity(c)
  {
  }

  lemma TrimmedSelf(c: Chan, keys: Keys)
    requires QueueOk(c, keys)
    ensures Trimmed(c, c)
  {
  }

  lemma StuckPop(c: Chan, keys: Keys, t: Time, c': Chan, keys': Keys, o: Option<Ref>)
    requires QueueOk(c, keys) && Stuck(c, keys, t) && Popped(c, keys, t, c', keys', o)
    ensures o == None && keys' == keys && Trimmed(c, c')
  {
    assert c.eta.Live() - Ready(c, keys, t) == c.eta.Live();
    assert Eligible(c, keys, t) == c.due.Live();
    assert keys' == keys;
  }
}
