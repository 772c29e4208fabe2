/**
 How often a job can be started between two manual requeues, counting worker deaths and
 retryable errors together.
 */
module JobRetries {
  import opened JobProtocol
  import opened JobDependencies

  /** The runner may still start this job once more without a requeue. */
  predicate Startable(s: Sys, j: Job) {
    || (j in s.rows && s.rows[j].state in {WaitDependencies, Pending, Enqueued, Started})
    || j in s.pending
    || (j in s.inbox && s.inbox[j] == Pending)
  }

  /** The starts that the stored retry count has to answer for. */
  function Spent(s: Sys, j: Job): int {
    var n := TallyOf(s, j); n.starts - n.ignored - n.rewound - (if IsState(s, j, Started) then 1 else 0)
  }

  ghost predicate CountOk(s: Sys, j: Job) {
    j in s.rows && s.rows[j].maxRetries > 0 ==>
      var row, n := s.rows[j], TallyOf(s, j);
      && Spent(s, j) <= row.retry
      && Spent(s, j) <= row.maxRetries + 2 + n.conflicts
      && (Startable(s, j) ==> Spent(s, j) <= row.maxRetries + 1 + n.conflicts)
  }

  ghost predicate Counted(s: Sys) { forall j :: j in s.rows ==> CountOk(s, j) }

  lemma RunnerCountOk(s: Sys, ev: Event, j: Job)
    requires Sound(s) && Counted(s) && Enabled(s, ev) && ByRunner(ev) && j in s.rows
    ensures CountOk(Next(s, ev), j)
  {
    assert CountOk(s, j);
  }

  lemma HandCountOk(s: Sys, ev: Event, j: Job)
    requires Sound(s) && Counted(s) && Enabled(s, ev) && ByHand(ev) && j in s.rows
    ensures CountOk(Next(s, ev), j)
  {
    assert CountOk(s, j);
    if ev.Requeue? {
      RequeueCountOk(s, ev, j);
    } else {
      ButtonKeeps(s, ev, j);
      hide Next, Enabled, Sound;
    }
  }

  lemma RequeueCountOk(s: Sys, ev: Event, j: Job)
    requires CountOk(s, j) && Enabled(s, ev) && ev.Requeue? && j in s.rows
    ensures CountOk(Next(s, ev), j)
  {
  }

  /** The buttons leave the counters alone and make no job startable that was not. */
  lemma ButtonKeeps(s: Sys, ev: Event, j: Job)
    requires Enabled(s, ev) && (ev.ButtonDone? || ev.ButtonCancelled?) && j in s.rows
    ensures var s' := Next(s, ev);
            && j in s'.rows && s'.rows[j].retry == s.rows[j].retry && s'.rows[j].maxRetries == s.rows[j].maxRetries
            && (s'.rows[j].state == Started <==> s.rows[j].state == Started)
            && TallyOf(s', j) == TallyOf(s, j) && (Startable(s', j) ==> Startable(s, j))
  {
  }

  lemma SucceedCountOk(s: Sys, ev: Event, j: Job)
    requires Sound(s) && CountOk(s, j) && Enabled(s, ev) && ev.Succeed? && j in s.rows
    ensures CountOk(Next(s, ev), j)
  {
    assert IsState(s, s.workers[ev.worker].job, Started);
  }

  lemma FailsCountOk(s: Sys, ev: Event, j: Job)
    requires Sound(s) && CountOk(s, j) && Enabled(s, ev) && ev.Fails? && j in s.rows
    ensures CountOk(Next(s, ev), j)
  {
    assert IsState(s, s.workers[ev.worker].job, Started);
  }

  lemma WorkerCountOk(s: Sys, ev: Event, j: Job)
    requires Counted(s) && Enabled(s, ev) && ByWorker(ev) && !ev.Succeed? && !ev.Fails? && j in s.rows
    ensures CountOk(Next(s, ev), j)
  {
    assert CountOk(s, j);
  }

  lemma NewCountOk(s: Sys, ev: Event, j: Job)
    requires Sound(s) && Enabled(s, ev) && ev.Create? && j in ev.batch
    ensures CountOk(Next(s, ev), j)
  {
  }

  lemma OnlyCreateAdds(s: Sys, ev: Event, j: Job)
    requires Sound(s) && Enabled(s, ev) && j !in s.rows && j in Next(s, ev).rows
    ensures ev.Create? && j in ev.batch
  {
  }

  lemma NextCountOk(s: Sys, ev: Event, j: Job)
    requires Sound(s) && Counted(s) && Enabled(s, ev) && j in Next(s, ev).rows
    ensures CountOk(Next(s, ev), j)
  {
    if j !in s.rows { OnlyCreateAdds(s, ev, j); NewCountOk(s, ev, j); }
    else {
      assert CountOk(s, j);
      hide Next, Enabled, Counted, Sound, CountOk;
      if ByRunner(ev) { RunnerCountOk(s, ev, j); } else if ByHand(ev) { HandCountOk(s, ev, j); }
      else if ev.Succeed? { SucceedCountOk(s, ev, j); } else if ev.Fails? { FailsCountOk(s, ev, j); } else { WorkerCountOk(s, ev, j); }
    }
  }

  lemma NextCounted(s: Sys, ev: Event)
    requires Sound(s) && Counted(s) && Enabled(s, ev)
    ensures Counted(Next(s, ev))
  {
    hide Next, Enabled, Sound, CountOk;
    forall j | j in Next(s, ev).rows ensures CountOk(Next(s, ev), j) { NextCountOk(s, ev, j); }
  }

  lemma {:induction false} RunCounted(s: Sys, evs: seq<Event>)
    requires Sound(s) && Counted(s) && Runs(s, evs)
    ensures Counted(After(s, evs))
    decreases |evs|
  {
    hide Next, Enabled, Sound, Counted;
    if evs != [] {
      NextSound(s, evs[0]);
      NextCounted(s, evs[0]);
      RunCounted(Next(s, evs[0]), evs[1..]);
    }
  }

  /**
   Between manual requeues a job with `m > 0` retries is started at most `m + 2` times, plus
   once for every database conflict and every retry that asked not to be counted, plus what
   workers with an old copy of the job set its retry count back by.
   */
  lemma StartsAreBounded(evs: seq<Event>, j: Job)
    requires Runs(EMPTY, evs) && j in After(EMPTY, evs).rows && After(EMPTY, evs).rows[j].maxRetries > 0
    ensures var s := After(EMPTY, evs);
            var n := TallyOf(s, j);
            n.starts <= s.rows[j].maxRetries + 2 + n.conflicts + n.ignored + n.rewound
  {
    hide Runs, After;
    assert Sound(EMPTY) && Counted(EMPTY);
    RunCounted(EMPTY, evs);
    assert CountOk(After(EMPTY, evs), j);
  }

  // ------------------------------------------------------- when nothing is ever set back

  /** A worker that gets the lock still has the retry count it loaded: nobody requeued the job
      and started it again between this worker's acquiring and locking it. */
  predicate FreshLock(s: Sys, ev: Event) {
    ev.Lock? && ev.worker in s.workers && s.workers[ev.worker].Acquired? && TakesLock(s, s.workers[ev.worker].job) ==>
      s.workers[ev.worker].retry == s.rows[s.workers[ev.worker].job].retry
  }

  predicate TakesLock(s: Sys, j: Job) { IsState(s, j, Started) && s.rows[j].lockRow && j !in s.holder }

  ghost predicate CopiesOk(s: Sys) {
    forall w :: w in s.workers && s.workers[w].Performing? ==>
      s.workers[w].job in s.rows && s.workers[w].retry == s.rows[s.workers[w].job].retry
  }

  /** Nobody changes the retry count of a row while a worker performs the job. */
  lemma RetryStays(s: Sys, ev: Event, w: Worker)
    requires Sound(s) && Enabled(s, ev) && w in s.workers && s.workers[w].Performing?
    requires w in Next(s, ev).workers && Next(s, ev).workers[w].Performing?
    ensures var j := s.workers[w].job; j in s.rows && j in Next(s, ev).rows && Next(s, ev).rows[j].retry == s.rows[j].retry
  {
    var j := s.workers[w].job;
    assert Holds(s, w, j);
    if ByWorker(ev) && ev.worker in s.workers && s.workers[ev.worker].Performing? {
      assert Holds(s, ev.worker, s.workers[ev.worker].job);
    }
    RetryUntouched(s, ev, j, w);
  }

  lemma RetryUntouched(s: Sys, ev: Event, j: Job, w: Worker)
    requires Enabled(s, ev) && IsState(s, j, Started) && s.rows[j].lockRow && j in s.holder && j !in s.pending
    requires ev.Succeed? || ev.Fails? ==> s.workers[ev.worker].job != j
    ensures j in Next(s, ev).rows && Next(s, ev).rows[j].retry == s.rows[j].retry
  {
  }

  lemma NextCopiesOk(s: Sys, ev: Event)
    requires Sound(s) && CopiesOk(s) && Enabled(s, ev) && FreshLock(s, ev)
    ensures CopiesOk(Next(s, ev))
  {
    var s' := Next(s, ev);
    forall w | w in s'.workers && s'.workers[w].Performing?
      ensures s'.workers[w].job in s'.rows && s'.workers[w].retry == s'.rows[s'.workers[w].job].retry
    {
      if w in s.workers && s.workers[w].Performing? {
        SameFlag(s, ev, w);
        RetryStays(s, ev, w);
      } else {
        JustLocked(s, ev, w);
      }
    }
  }

  lemma JustLocked(s: Sys, ev: Event, w: Worker)
    requires Enabled(s, ev) && FreshLock(s, ev) && w in Next(s, ev).workers && Next(s, ev).workers[w].Performing?
    requires !(w in s.workers && s.workers[w].Performing?)
    ensures var s' := Next(s, ev); s'.workers[w].job in s'.rows && s'.workers[w].retry == s'.rows[s'.workers[w].job].retry
  {
    OnlyLockPerforms(s, ev, w);
  }

  lemma OnlyLockPerforms(s: Sys, ev: Event, w: Worker)
    requires Enabled(s, ev) && w in Next(s, ev).workers && Next(s, ev).workers[w].Performing?
    requires !(w in s.workers && s.workers[w].Performing?)
    ensures ev == Lock(w) && TakesLock(s, s.workers[w].job)
  {
  }

  /** A worker's retry count is that of the row as long as, and only as long as, locks are fresh. */
  lemma CopiesExactlyWhen(s: Sys, ev: Event)
    requires Sound(s) && CopiesOk(s) && Enabled(s, ev)
    ensures CopiesOk(Next(s, ev)) <==> FreshLock(s, ev)
  {
    if FreshLock(s, ev) { NextCopiesOk(s, ev); }
    else {
      var w := ev.worker;
      assert Next(s, ev).workers[w].Performing? && Next(s, ev).workers[w].retry == s.workers[w].retry;
    }
  }

  ghost predicate NoneRewound(s: Sys) { forall j :: TallyOf(s, j).rewound == 0 }

  lemma NextNoneRewound(s: Sys, ev: Event)
    requires CopiesOk(s) && NoneRewound(s) && Enabled(s, ev)
    ensures NoneRewound(Next(s, ev))
  {
    forall j ensures TallyOf(Next(s, ev), j).rewound == 0 { NotRewound(s, ev, j); }
  }

  lemma NotRewound(s: Sys, ev: Event, j: Job)
    requires CopiesOk(s) && Enabled(s, ev) && TallyOf(s, j).rewound == 0
    ensures TallyOf(Next(s, ev), j).rewound == 0
  {
  }

  lemma {:induction false} RunNoneRewound(s: Sys, evs: seq<Event>)
    requires Sound(s) && CopiesOk(s) && NoneRewound(s) && Runs(s, evs) && Guarded(s, evs, (t, ev) => FreshLock(t, ev))
    ensures NoneRewound(After(s, evs))
    decreases |evs|
  {
    hide Next, Enabled, Sound, FreshLock, CopiesOk, NoneRewound;
    if evs != [] {
      NextSound(s, evs[0]);
      NextCopiesOk(s, evs[0]);
      NextNoneRewound(s, evs[0]);
      RunNoneRewound(Next(s, evs[0]), evs[1..]);
    }
  }

  /** As long as workers lock only what they acquired, nothing is set back and the plain bound holds. */
  lemma FreshStartsAreBounded(evs: seq<Event>, j: Job)
    requires Runs(EMPTY, evs) && Guarded(EMPTY, evs, (t, ev) => FreshLock(t, ev))
    requires j in After(EMPTY, evs).rows && After(EMPTY, evs).rows[j].maxRetries > 0
    ensures var s := After(EMPTY, evs);
            var n := TallyOf(s, j);
            n.rewound == 0 && n.starts <= s.rows[j].maxRetries + 2 + n.conflicts + n.ignored
  {
    hide Runs, After, Guarded, FreshLock;
    assert Sound(EMPTY) && CopiesOk(EMPTY) && NoneRewound(EMPTY);
    RunNoneRewound(EMPTY, evs);
    StartsAreBounded(evs, j);
  }

  // ------------------------------------------------------------- what a late lock can do

  /** A single job without parents and with two retries. */
  function Solo(row: Row, holder: map<Job, Worker>, workers: map<Worker, Phase>, starts: nat, rewound: nat): Sys {
    Sys(map[0 := row], holder, workers, {}, map[], map[0 := Tally(starts, 0, 0, rewound)])
  }

  function SoloRow(st: State, retry: nat, lockRow: bool): Row { Row(st, retry, 2, {}, lockRow) }

  /** The runner picks the job up and worker `w` acquires it. */
  lemma Restart(evs: seq<Event>, retry: nat, lockRow: bool, holder: map<Job, Worker>, workers: map<Worker, Phase>, n: nat, b: nat, w: Worker)
    returns (evs': seq<Event>)
    requires Runs(EMPTY, evs) && After(EMPTY, evs) == Solo(SoloRow(Pending, retry, lockRow), holder, workers, n, b)
    requires w !in workers
    ensures Runs(EMPTY, evs')
    ensures After(EMPTY, evs') == Solo(SoloRow(Started, retry, true), holder, workers[w := Acquired(0, retry, true)], n + 1, b)
  {
    var s := Solo(SoloRow(Pending, retry, lockRow), holder, workers, n, b);
    var s1 := s.(inbox := map[0 := Pending]);
    var s2 := s.(pending := s.pending + {0});
    var s3 := Solo(SoloRow(Enqueued, retry, lockRow), holder, workers, n, b);
    var s4 := Solo(SoloRow(Started, retry, true), holder, workers[w := Acquired(0, retry, true)], n + 1, b);
    Received(s, 0);
    assert WithState(s2.rows, 0, Enqueued) == s3.rows;
    Dispatched(s2, 0, s3);
    Taken(s3, w, s4);
    hide Next, Enabled, Runs, After, Solo;
    Extend(EMPTY, evs, Read(0), s, s1);
    Extend(EMPTY, evs + [Read(0)], Apply(0, false), s1, s2);
    Extend(EMPTY, evs + [Read(0)] + [Apply(0, false)], Dispatch(0), s2, s3);
    Extend(EMPTY, evs + [Read(0)] + [Apply(0, false)] + [Dispatch(0)], Acquire(w, 0), s3, s4);
    evs' := evs + [Read(0)] + [Apply(0, false)] + [Dispatch(0)] + [Acquire(w, 0)];
  }

  lemma Taken(s: Sys, w: Worker, s': Sys)
    requires IsState(s, 0, Enqueued) && s.rows[0].parents == {} && w !in s.workers && s.tally == map[0 := TallyOf(s, 0)]
    requires s' == s.(rows := s.rows[0 := s.rows[0].(state := Started, lockRow := true)],
                      workers := s.workers[w := Acquired(0, s.rows[0].retry, true)],
                      tally := map[0 := TallyOf(s, 0).(starts := TallyOf(s, 0).starts + 1)])
    ensures Enabled(s, Acquire(w, 0)) && Next(s, Acquire(w, 0)) == s'
  {
    assert ParentsDone(s, 0);
    var n := TallyOf(s, 0);
    assert s.tally[0 := n.(starts := n.starts + 1)] == s'.tally;
  }

  /** The worker is taken for dead before it has locked the job. */
  lemma FoundDead(evs: seq<Event>, retry: nat, workers: map<Worker, Phase>, n: nat, b: nat)
    requires Runs(EMPTY, evs) && After(EMPTY, evs) == Solo(SoloRow(Started, retry, true), map[], workers, n, b) && retry <= 2
    ensures Runs(EMPTY, evs + [RequeueDead(0)])
    ensures After(EMPTY, evs + [RequeueDead(0)]) == Solo(SoloRow(Pending, retry + 1, true), map[], workers, n, b)
  {
    var s, s' := Solo(SoloRow(Started, retry, true), map[], workers, n, b), Solo(SoloRow(Pending, retry + 1, true), map[], workers, n, b);
    assert s.rows[0 := RequeueDeadRow(s.rows[0])] == s'.rows;
    assert Enabled(s, RequeueDead(0)) && Next(s, RequeueDead(0)) == s';
    hide Next, Enabled, Runs, After, Solo;
    Extend(EMPTY, evs, RequeueDead(0), s, s');
  }

  /** The slow first worker locks the job after all, fails, and stores its own, old retry count. */
  lemma LateLock(evs: seq<Event>, workers: map<Worker, Phase>, n: nat) returns (evs': seq<Event>)
    requires Runs(EMPTY, evs) && After(EMPTY, evs) == Solo(SoloRow(Started, 3, true), map[], workers, n, 0)
    requires 1 in workers && workers[1] == Acquired(0, 0, true)
    ensures Runs(EMPTY, evs') && After(EMPTY, evs') == Solo(SoloRow(Pending, 1, true), map[], workers - {1}, n, 3)
  {
    var s := Solo(SoloRow(Started, 3, true), map[], workers, n, 0);
    var s1 := Solo(SoloRow(Started, 3, true), map[0 := 1], workers[1 := Performing(0, 0, true)], n, 0);
    var s2 := Solo(SoloRow(Pending, 1, true), map[0 := 1], workers[1 := Finishing(0)], n, 3);
    var s3 := Solo(SoloRow(Pending, 1, true), map[], workers - {1}, n, 3);
    LockStep(s, s1);
    FailStep(s1, s2);
    ReleaseStep(s2, s3);
    hide Next, Enabled, Runs, After, Solo;
    Extend(EMPTY, evs, Lock(1), s, s1);
    Extend(EMPTY, evs + [Lock(1)], Fails(1, Retryable), s1, s2);
    Extend(EMPTY, evs + [Lock(1)] + [Fails(1, Retryable)], Release(1), s2, s3);
    evs' := evs + [Lock(1)] + [Fails(1, Retryable)] + [Release(1)];
  }

  lemma ReleaseStep(s: Sys, s': Sys)
    requires 1 in s.workers && s.workers[1] == Finishing(0) && s.holder == map[0 := 1]
    requires s' == s.(holder := map[], workers := s'.workers) && s'.workers == s.workers - {1}
    ensures Enabled(s, Release(1)) && Next(s, Release(1)) == s'
  {
    assert Unlock(s.holder, 1) == map[];
  }

  lemma LockStep(s: Sys, s': Sys)
    requires 1 in s.workers && s.workers[1] == Acquired(0, 0, true) && s.holder == map[] && s.rows == map[0 := SoloRow(Started, 3, true)]
    requires s' == s.(holder := map[0 := 1], workers := s.workers[1 := Performing(0, 0, true)])
    ensures Enabled(s, Lock(1)) && Next(s, Lock(1)) == s'
  {
  }

  lemma FailStep(s: Sys, s': Sys)
    requires 1 in s.workers && s.workers[1] == Performing(0, 0, true) && s.rows == map[0 := SoloRow(Started, 3, true)]
    requires s.tally == map[0 := TallyOf(s, 0)] && TallyOf(s, 0).rewound == 0
    requires s' == s.(rows := map[0 := SoloRow(Pending, 1, true)], workers := s.workers[1 := Finishing(0)],
                      tally := map[0 := TallyOf(s, 0).(rewound := 3)])
    ensures Enabled(s, Fails(1, Retryable)) && Next(s, Fails(1, Retryable)) == s'
  {
    assert s.rows[0 := SoloRow(Pending, 1, true)] == s'.rows;
    assert s.tally[0 := TallyOf(s, 0).(rewound := 3)] == s'.tally;
  }

  /** One more start, by worker `w`, that ends in a dead-job requeue. */
  lemma DeadRound(evs: seq<Event>, retry: nat, lockRow: bool, workers: map<Worker, Phase>, n: nat, b: nat, w: Worker)
    returns (evs': seq<Event>)
    requires Runs(EMPTY, evs) && After(EMPTY, evs) == Solo(SoloRow(Pending, retry, lockRow), map[], workers, n, b)
    requires w !in workers && retry <= 2
    ensures Runs(EMPTY, evs')
    ensures After(EMPTY, evs') == Solo(SoloRow(Pending, retry + 1, true), map[], workers[w := Acquired(0, retry, true)], n + 1, b)
  {
    hide Runs, After, Solo, SoloRow;
    evs' := Restart(evs, retry, lockRow, map[], workers, n, b, w);
    FoundDead(evs', retry, workers[w := Acquired(0, retry, true)], n + 1, b);
    evs' := evs' + [RequeueDead(0)];
  }

  /** Without any late lock the bound is reached: with two retries, three starts that end in
      dead-job requeues, and a fourth. The first worker is only slow. */
  lemma FourStarts() returns (evs: seq<Event>, workers: map<Worker, Phase>)
    ensures Runs(EMPTY, evs) && After(EMPTY, evs) == Solo(SoloRow(Started, 3, true), map[], workers, 4, 0)
    ensures 1 in workers && workers[1] == Acquired(0, 0, true) && workers.Keys == {1, 2, 3, 4}
  {
    hide Runs, After, Solo, SoloRow;
    workers := map[];
    evs := SoloCreated();
    evs := DeadRound(evs, 0, false, workers, 0, 0, 1);
    workers := workers[1 := Acquired(0, 0, true)];
    evs := DeadRound(evs, 1, true, workers, 1, 0, 2);
    workers := workers[2 := Acquired(0, 1, true)];
    evs := DeadRound(evs, 2, true, workers, 2, 0, 3);
    workers := workers[3 := Acquired(0, 2, true)];
    evs := Restart(evs, 3, true, map[], workers, 3, 0, 4);
    workers := workers[4 := Acquired(0, 3, true)];
  }

  /** With two retries the plain bound is four starts. A late lock sets the retry count back by
      three, and the job is started three more times: the bound with that added is reached. */
  lemma LateLockExceedsBound() returns (evs: seq<Event>)
    ensures Runs(EMPTY, evs)
    ensures var s := After(EMPTY, evs);
            0 in s.rows && s.rows[0].maxRetries == 2 && TallyOf(s, 0) == Tally(7, 0, 0, 3)
  {
    var workers;
    evs, workers := FourStarts();
    hide Runs, After, Solo;
    evs := LateLock(evs, workers, 4);
    workers := workers - {1};
    evs := DeadRound(evs, 1, true, workers, 4, 3, 5);
    workers := workers[5 := Acquired(0, 1, true)];
    evs := DeadRound(evs, 2, true, workers, 5, 3, 6);
    workers := workers[6 := Acquired(0, 2, true)];
    evs := Restart(evs, 3, true, map[], workers, 6, 3, 7);
    SoloTally(SoloRow(Started, 3, true), map[], workers[7 := Acquired(0, 3, true)], 7, 3);
  }

  lemma SoloTally(row: Row, holder: map<Job, Worker>, workers: map<Worker, Phase>, n: nat, b: nat)
    ensures var s := Solo(row, holder, workers, n, b); 0 in s.rows && s.rows[0] == row && TallyOf(s, 0) == Tally(n, 0, 0, b)
  {
  }

  lemma SoloCreated() returns (evs: seq<Event>)
    ensures Runs(EMPTY, evs) && After(EMPTY, evs) == Solo(SoloRow(Pending, 0, false), map[], map[], 0, 0)
  {
    var batch: map<Job, set<Job>> := map[0 := {}];
    var s := Solo(SoloRow(Pending, 0, false), map[], map[], 0, 0);
    assert CreateRows(EMPTY, batch, 2).rows == s.rows && CreateRows(EMPTY, batch, 2).tally == s.tally;
    assert Enabled(EMPTY, Create(batch, 2)) && Next(EMPTY, Create(batch, 2)) == s;
    hide Next, Enabled, Solo;
    NoSteps(EMPTY);
    Extend(EMPTY, [], Create(batch, 2), EMPTY, s);
    evs := [] + [Create(batch, 2)];
  }
}
