/**
 Dependencies between jobs over whole runs of the protocol: no job gets ahead of its parents,
 and no dependent is left behind. Neither holds without a condition; both conditions are
 spelled out, with a run that shows what happens without them.
 */
module JobDependencies {
  import opened JobProtocol

  // ----------------------------------------------------------------- building example runs

  lemma NoSteps(s: Sys)
    ensures Runs(s, []) && After(s, []) == s
  {
  }

  /** One more step of a run whose last state is known. */
  lemma {:induction false} Extend(s: Sys, evs: seq<Event>, ev: Event, s1: Sys, s2: Sys)
    requires Runs(s, evs) && After(s, evs) == s1 && Enabled(s1, ev) && Next(s1, ev) == s2
    ensures Runs(s, evs + [ev]) && After(s, evs + [ev]) == s2
    decreases |evs|
  {
    hide Enabled, Next;
    if evs == [] {
      assert evs + [ev] == [ev] && [ev][1..] == [];
      assert Runs(s2, []);
    } else {
      assert (evs + [ev])[1..] == evs[1..] + [ev];
      Extend(Next(s, evs[0]), evs[1..], ev, s1, s2);
    }
  }

  // -------------------------------------------------------------------- dependency safety

  /** Past the wait for dependencies, and neither done nor cancelled. */
  predicate Live(s: Sys, j: Job) { j in s.rows && s.rows[j].state in {Pending, Enqueued, Started, Failed} }

  /** The steps that take a job out of DONE: a requeue, or the runner dispatching a job it still
      holds as pending although it has been set to done meanwhile. */
  predicate LeavesDone(s: Sys, ev: Event) {
    (ev.Requeue? || ev.Dispatch?) && IsState(s, ev.job, Done)
  }

  ghost predicate DepSafe(s: Sys) {
    && (forall j :: Live(s, j) ==> ParentsDone(s, j))
    && (forall j :: j in s.pending ==> ParentsDone(s, j))
    && (forall j :: j in s.inbox && s.inbox[j] == Pending ==> ParentsDone(s, j))
  }

  lemma DoneStays(s: Sys, ev: Event, p: Job)
    requires Sound(s) && Enabled(s, ev) && !LeavesDone(s, ev) && IsState(s, p, Done)
    ensures IsState(Next(s, ev), p, Done)
  {
  }

  lemma ParentsDoneStays(s: Sys, ev: Event, j: Job)
    requires Sound(s) && Enabled(s, ev) && !LeavesDone(s, ev) && ParentsDone(s, j)
    ensures ParentsDone(Next(s, ev), j)
  {
    hide Next, Enabled, Sound, LeavesDone;
    RowKept(s, ev, j);
    forall p | p in s.rows[j].parents ensures IsState(Next(s, ev), p, Done) {
      DoneStays(s, ev, p);
    }
  }

  /** How a job can become live. */
  lemma LiveFrom(s: Sys, ev: Event, j: Job)
    requires Sound(s) && Enabled(s, ev) && Live(Next(s, ev), j) && !LeavesDone(s, ev)
    ensures || Live(s, j)
            || (ev.Create? && j in ev.batch && ev.batch[j] == {})
            || ev == Dispatch(j)
            || ((ev.EnqueueDependents? || ev.ButtonDone? || ev == Requeue(j)) && !Live(s, j) && j in s.rows)
  {
    if ev.Fails? || ev.Succeed? { assert IsState(s, s.workers[ev.worker].job, Started); }
  }

  lemma MovedParentsDone(s: Sys, ev: Event, j: Job)
    requires Enabled(s, ev) && (ev.EnqueueDependents? || ev.ButtonDone? || ev == Requeue(j))
    requires j in s.rows && !Live(s, j) && Live(Next(s, ev), j) && !LeavesDone(s, ev)
    ensures ParentsDone(Next(s, ev), j)
  {
  }

  lemma NextLiveSafe(s: Sys, ev: Event, j: Job)
    requires Sound(s) && DepSafe(s) && Enabled(s, ev) && !LeavesDone(s, ev) && Live(Next(s, ev), j)
    ensures ParentsDone(Next(s, ev), j)
  {
    LiveFrom(s, ev, j);
    if Live(s, j) { ParentsDoneStays(s, ev, j); }
    else if ev == Dispatch(j) { ParentsDoneStays(s, ev, j); }
    else if ev.Create? { CreatedRow(s, ev, j); }
    else { MovedParentsDone(s, ev, j); }
  }

  lemma CreatedRow(s: Sys, ev: Event, j: Job)
    requires Enabled(s, ev) && ev.Create? && j in ev.batch && ev.batch[j] == {}
    ensures ParentsDone(Next(s, ev), j)
  {
  }

  lemma NextDepSafe(s: Sys, ev: Event)
    requires Sound(s) && DepSafe(s) && Enabled(s, ev) && !LeavesDone(s, ev)
    ensures DepSafe(Next(s, ev))
  {
    hide Next, Enabled, Sound, LeavesDone, ParentsDone, Live;
    var s' := Next(s, ev);
    forall j | Live(s', j) ensures ParentsDone(s', j) { NextLiveSafe(s, ev, j); }
    forall j | j in s'.pending ensures ParentsDone(s', j) {
      PendingFrom(s, ev, j);
      ParentsDoneStays(s, ev, j);
    }
    forall j | j in s'.inbox && s'.inbox[j] == Pending ensures ParentsDone(s', j) {
      InboxFrom(s, ev, j);
      if IsState(s, j, Pending) { assert Live(s, j) by { PendingIsLive(s, j); } }
      ParentsDoneStays(s, ev, j);
    }
  }

  lemma PendingIsLive(s: Sys, j: Job)
    requires IsState(s, j, Pending)
    ensures Live(s, j)
  {
  }

  /**
   In every run in which no job leaves DONE, each job that is PENDING, ENQUEUED, STARTED or
   FAILED has all its parents DONE.
   */
  lemma {:induction false} RunDepSafe(s: Sys, evs: seq<Event>)
    requires Sound(s) && DepSafe(s) && Runs(s, evs) && Guarded(s, evs, (t, ev) => !LeavesDone(t, ev))
    ensures DepSafe(After(s, evs))
    decreases |evs|
  {
    hide Next, Enabled, Sound, LeavesDone, DepSafe;
    if evs != [] {
      NextSound(s, evs[0]);
      NextDepSafe(s, evs[0]);
      RunDepSafe(Next(s, evs[0]), evs[1..]);
    }
  }

  // ------------------------------------------------------------ exactly when it is broken

  /** Every job past its wait has all its parents DONE. */
  ghost predicate LiveSafe(s: Sys) { forall j :: Live(s, j) ==> ParentsDone(s, j) }

  /** A job taken out of DONE is live again: dispatched, or requeued with all parents done. */
  predicate Revives(s: Sys, ev: Event) { LeavesDone(s, ev) && (ev.Dispatch? || ParentsDone(s, ev.job)) }

  /** The step takes a job out of DONE on which a live job depends, itself included if it
      becomes live by that; or it dispatches a job that is not live and whose parents are not done. */
  ghost predicate Overtakes(s: Sys, ev: Event) {
    || (LeavesDone(s, ev) && exists c :: c in s.rows && ev.job in s.rows[c].parents && (Live(s, c) || (c == ev.job && Revives(s, ev))))
    || (ev.Dispatch? && !Live(s, ev.job) && !ParentsDone(s, ev.job))
  }

  /** What a step that takes a job out of DONE does to the other jobs, and to the job itself. */
  lemma LeavingDone(s: Sys, ev: Event, c: Job)
    requires Enabled(s, ev) && LeavesDone(s, ev)
    ensures var s' := Next(s, ev);
            && (c in s'.rows <==> c in s.rows)
            && (c in s.rows ==> s'.rows[c].parents == s.rows[c].parents)
            && (c in s.rows && c != ev.job ==> s'.rows[c].state == s.rows[c].state)
            && (c == ev.job ==> !IsState(s', c, Done) && (Live(s', c) <==> Revives(s, ev)))
  {
  }

  lemma LeavingDoneExactly(s: Sys, ev: Event)
    requires Sound(s) && LiveSafe(s) && Enabled(s, ev) && LeavesDone(s, ev)
    ensures LiveSafe(Next(s, ev)) <==> !Overtakes(s, ev)
  {
    var s' := Next(s, ev);
    var j := ev.job;
    forall c ensures Live(s', c) <==> if c == j then Revives(s, ev) else Live(s, c) { LeavingDone(s, ev, c); }
    forall c | Live(s', c) && j !in s.rows[c].parents && ParentsDone(s, c) ensures ParentsDone(s', c) {
      LeavingDone(s, ev, c);
      forall p | p in s.rows[c].parents ensures IsState(s', p, Done) { LeavingDone(s, ev, p); }
    }
    forall c | c in s.rows && j in s.rows[c].parents ensures !ParentsDone(s', c) { LeavingDone(s, ev, c); LeavingDone(s, ev, j); }
    hide Next, Enabled, Sound, ParentsDone;
  }

  lemma DispatchExactly(s: Sys, ev: Event)
    requires Sound(s) && LiveSafe(s) && Enabled(s, ev) && ev.Dispatch? && !LeavesDone(s, ev)
    ensures LiveSafe(Next(s, ev)) <==> !Overtakes(s, ev)
  {
    var s' := Next(s, ev);
    var j := ev.job;
    forall c ensures c != j ==> (Live(s', c) <==> Live(s, c)) {}
    assert Live(s', j);
    forall c | c in s.rows ensures ParentsDone(s', c) <==> ParentsDone(s, c) { DispatchParents(s, ev, c); }
    hide Next, Enabled, Sound, ParentsDone;
  }

  lemma DispatchParents(s: Sys, ev: Event, c: Job)
    requires Enabled(s, ev) && ev.Dispatch? && !LeavesDone(s, ev) && c in s.rows
    ensures ParentsDone(Next(s, ev), c) <==> ParentsDone(s, c)
  {
    forall p ensures IsState(Next(s, ev), p, Done) <==> IsState(s, p, Done) {}
  }

  lemma OtherStepsSafe(s: Sys, ev: Event)
    requires Sound(s) && LiveSafe(s) && Enabled(s, ev) && !LeavesDone(s, ev) && !ev.Dispatch?
    ensures LiveSafe(Next(s, ev))
  {
    forall j | Live(Next(s, ev), j) ensures ParentsDone(Next(s, ev), j) {
      LiveFrom(s, ev, j);
      hide Next, Enabled, Sound, LeavesDone, ParentsDone;
      if Live(s, j) { ParentsDoneStays(s, ev, j); }
      else if ev.Create? { CreatedRow(s, ev, j); }
      else { MovedParentsDone(s, ev, j); }
    }
  }

  /** From a safe state, exactly the steps that overtake lead to an unsafe one. */
  lemma UnsafeExactlyWhen(s: Sys, ev: Event)
    requires Sound(s) && LiveSafe(s) && Enabled(s, ev)
    ensures LiveSafe(Next(s, ev)) <==> !Overtakes(s, ev)
  {
    if LeavesDone(s, ev) { LeavingDoneExactly(s, ev); }
    else if ev.Dispatch? { DispatchExactly(s, ev); }
    else { OtherStepsSafe(s, ev); }
  }

  ghost predicate SafeThroughout(s: Sys, evs: seq<Event>)
    requires Runs(s, evs)
    decreases |evs|
  {
    LiveSafe(s) && (evs != [] ==> SafeThroughout(Next(s, evs[0]), evs[1..]))
  }

  /** In all states of a run every job past its wait has all its parents DONE, exactly when none
      of the steps of the run overtakes. */
  lemma {:induction false} RunSafeExactlyWhen(s: Sys, evs: seq<Event>)
    requires Sound(s) && LiveSafe(s) && Runs(s, evs)
    ensures SafeThroughout(s, evs) <==> Guarded(s, evs, (t, ev) => !Overtakes(t, ev))
    decreases |evs|
  {
    hide Next, Enabled, Sound, Overtakes, LiveSafe;
    if evs != [] {
      NextSound(s, evs[0]);
      UnsafeExactlyWhen(s, evs[0]);
      if LiveSafe(Next(s, evs[0])) { RunSafeExactlyWhen(Next(s, evs[0]), evs[1..]); }
    }
  }

  /** Parent 0 is set to done by hand while the runner still holds it as pending; the runner
      then dispatches it. No DONE job was requeued, yet child 1 is ahead of its parent. */
  lemma StaleDispatchOvertakes() returns (evs: seq<Event>)
    ensures Runs(EMPTY, evs) && forall k :: 0 <= k < |evs| ==> !evs[k].Requeue?
    ensures var s := After(EMPTY, evs); IsState(s, 1, Pending) && 0 in s.rows[1].parents && IsState(s, 0, Enqueued)
  {
    var s3 := Two(Pending, WaitDependencies).(pending := {0});
    var s4 := Two(Done, Pending).(pending := {0});
    var s5 := Two(Enqueued, Pending);
    TwoParts(Pending, WaitDependencies);
    TwoParts(Done, Pending);
    TwoParts(Enqueued, Pending);
    hide Next, Enabled, Two, WithState, Runs, After;
    evs := TakenUp();
    DoneReleases(s3);
    assert s4 == s3.(rows := Two(Done, Pending).rows);
    Dispatched(s4, 0, s5);
    Extend(EMPTY, evs, ButtonDone(0), s3, s4);
    evs := evs + [ButtonDone(0)];
    Extend(EMPTY, evs, Dispatch(0), s4, s5);
    evs := evs + [Dispatch(0)];
  }

  /** The two jobs are created and the runner holds the parent as pending. */
  lemma TakenUp() returns (evs: seq<Event>)
    ensures Runs(EMPTY, evs) && After(EMPTY, evs) == Two(Pending, WaitDependencies).(pending := {0})
    ensures forall k :: 0 <= k < |evs| ==> !evs[k].Requeue?
  {
    var e1 := Create(BATCH, 0);
    var s1 := Two(Pending, WaitDependencies);
    var s2 := s1.(inbox := map[0 := Pending]);
    var s3 := s1.(pending := {0});
    TwoParts(Pending, WaitDependencies);
    hide Next, Enabled, Two, WithState, Runs, After;
    NoSteps(EMPTY);
    Created();
    Received(s1, 0);
    assert s3 == s1.(pending := s1.pending + {0});
    Extend(EMPTY, [], e1, EMPTY, s1);
    evs := [] + [e1];
    Extend(EMPTY, evs, Read(0), s1, s2);
    evs := evs + [Read(0)];
    Extend(EMPTY, evs, Apply(0, false), s2, s3);
    evs := evs + [Apply(0, false)];
  }

  lemma TwoParts(st0: State, st1: State)
    ensures var s := Two(st0, st1);
            && IsState(s, 0, st0) && IsState(s, 1, st1) && 0 in s.rows[1].parents
            && s.pending == {} && s.inbox == map[]
            && s == Two(Pending, WaitDependencies).(rows := s.rows)
            && WithState(s.rows, 0, Enqueued) == Two(Enqueued, st1).rows
            && WithState(s.rows, 1, Enqueued) == Two(st0, Enqueued).rows
  {
  }

  const BATCH: map<Job, set<Job>> := map[0 := {}, 1 := {0}]

  /** Job 0 and its child 1, nobody at work. */
  function Two(st0: State, st1: State): Sys {
    Sys(map[0 := Row(st0, 0, 0, {}, false), 1 := Row(st1, 0, 0, {0}, false)], map[], map[], {}, map[],
        map[0 := Tally(0, 0, 0, 0), 1 := Tally(0, 0, 0, 0)])
  }

  lemma CreatedRows()
    ensures CreateRows(EMPTY, BATCH, 0).rows == Two(Pending, WaitDependencies).rows
  {
    var rows, rows' := CreateRows(EMPTY, BATCH, 0).rows, Two(Pending, WaitDependencies).rows;
    assert rows.Keys == rows'.Keys;
    assert rows[0] == rows'[0] && rows[1] == rows'[1];
  }

  lemma CreatedTally()
    ensures CreateRows(EMPTY, BATCH, 0).tally == Two(Pending, WaitDependencies).tally
  {
  }

  lemma Created()
    ensures Enabled(EMPTY, Create(BATCH, 0)) && Next(EMPTY, Create(BATCH, 0)) == Two(Pending, WaitDependencies)
  {
    CreatedRows();
    CreatedTally();
    assert CreateRows(EMPTY, BATCH, 0) == EMPTY.(rows := CreateRows(EMPTY, BATCH, 0).rows, tally := CreateRows(EMPTY, BATCH, 0).tally);
    assert Enabled(EMPTY, Create(BATCH, 0));
    hide CreateRows;
  }

  /** The runner reads a pending row and takes it up. */
  lemma Received(s: Sys, j: Job)
    requires IsState(s, j, Pending) && s.inbox == map[]
    ensures Enabled(s, Read(j)) && Next(s, Read(j)) == s.(inbox := map[j := Pending])
    ensures var s1 := s.(inbox := map[j := Pending]);
            Enabled(s1, Apply(j, false)) && Next(s1, Apply(j, false)) == s.(pending := s.pending + {j})
  {
    assert map[j := Pending] - {j} == map[];
  }

  lemma Dispatched(s: Sys, j: Job, s': Sys)
    requires j in s.pending && s.inbox == map[] && j in s.rows
    requires s' == s.(rows := WithState(s.rows, j, Enqueued), pending := s.pending - {j})
    ensures Enabled(s, Dispatch(j)) && Next(s, Dispatch(j)) == s'
  {
  }

  lemma DoneReleases(s: Sys)
    requires s.rows == Two(Pending, WaitDependencies).rows
    ensures Enabled(s, ButtonDone(0)) && Next(s, ButtonDone(0)) == s.(rows := Two(Done, Pending).rows)
  {
    var rows1 := WithState(s.rows, 0, Done);
    assert rows1 == Two(Done, WaitDependencies).rows;
    assert Moves(rows1, 0, Done, 1) && !Moves(rows1, 0, Done, 0);
    assert MoveDependents(rows1, 0, Done, Pending) == Two(Done, Pending).rows;
  }

  // ------------------------------------------------------------------ no dependent is lost

  /** Waiting although every parent is done. */
  predicate Ready(s: Sys, c: Job) { IsState(s, c, WaitDependencies) && ParentsDone(s, c) }

  /** A parent has committed DONE and its worker has yet to look at the dependents. */
  predicate Outstanding(s: Sys, c: Job, w: Worker) {
    c in s.rows && w in s.workers && s.workers[w].Enqueuing? && s.workers[w].job in s.rows[c].parents
  }

  ghost predicate NoLost(s: Sys) { forall c :: Ready(s, c) ==> exists w :: Outstanding(s, c, w) }

  /** Only jobs that have parents wait for them. */
  ghost predicate WaitOk(s: Sys) {
    && (forall j :: IsState(s, j, WaitDependencies) ==> s.rows[j].parents != {})
    && (forall w :: w in s.workers && (s.workers[w].Acquired? || s.workers[w].Performing?) && !s.workers[w].parentsDone ==>
          s.workers[w].job in s.rows && s.rows[s.workers[w].job].parents != {})
  }

  /** The steps that lose a dependent. */
  ghost predicate Loses(s: Sys, ev: Event) {
    match ev
    case Fails(w, how) =>
      && w in s.workers && s.workers[w].Performing? && s.workers[w].job in s.rows
      && var p := s.workers[w];
         && how != Error && !(how == Retryable && s.rows[p.job].maxRetries != 0 && p.retry + 1 >= s.rows[p.job].maxRetries)
         && !p.parentsDone
         && ParentsDone(s, p.job) && !(exists w2 :: Outstanding(s, p.job, w2))
    case Crash(w) => exists c :: Ready(s, c) && Outstanding(s, c, w) && forall w2 :: Outstanding(s, c, w2) ==> w2 == w
    case _ => false
  }

  /** The two ways a job becomes DONE. */
  predicate Finishes(s: Sys, ev: Event, p: Job) {
    ev == ButtonDone(p) || (ev.Succeed? && ev.worker in s.workers && s.workers[ev.worker].job == p)
  }

  lemma BecomesDone(s: Sys, ev: Event, p: Job)
    requires Sound(s) && Enabled(s, ev) && !IsState(s, p, Done) && IsState(Next(s, ev), p, Done)
    ensures Finishes(s, ev, p)
  {
  }

  lemma BecomesWaiting(s: Sys, ev: Event, c: Job)
    requires Enabled(s, ev) && !IsState(s, c, WaitDependencies) && IsState(Next(s, ev), c, WaitDependencies)
    ensures || (ev.Create? && c in ev.batch && ev.batch[c] != {})
            || (ev == Requeue(c) && !ParentsDone(s, c))
            || (ev.Fails? && s.workers[ev.worker].job == c && c in s.rows && !s.workers[ev.worker].parentsDone
                && !GivesUp(s.rows[c].maxRetries, s.workers[ev.worker].retry, ev.how))
  {
  }

  lemma NextWaitOk(s: Sys, ev: Event)
    requires Sound(s) && WaitOk(s) && Enabled(s, ev)
    ensures WaitOk(Next(s, ev))
  {
    var s' := Next(s, ev);
    forall j | IsState(s', j, WaitDependencies) ensures s'.rows[j].parents != {} { WaitingHasParents(s, ev, j); }
    forall w | w in s'.workers && (s'.workers[w].Acquired? || s'.workers[w].Performing?) && !s'.workers[w].parentsDone
      ensures s'.workers[w].job in s'.rows && s'.rows[s'.workers[w].job].parents != {}
    {
      FlagFrom(s, ev, w);
    }
  }

  lemma WaitingHasParents(s: Sys, ev: Event, j: Job)
    requires Sound(s) && WaitOk(s) && Enabled(s, ev) && IsState(Next(s, ev), j, WaitDependencies)
    ensures Next(s, ev).rows[j].parents != {}
  {
    hide Sound;
    if IsState(s, j, WaitDependencies) {
      RowKept(s, ev, j);
    } else {
      BecomesWaiting(s, ev, j);
      if j in s.rows { RowKept(s, ev, j); }
    }
  }

  lemma FlagFrom(s: Sys, ev: Event, w: Worker)
    requires Sound(s) && WaitOk(s) && Enabled(s, ev) && w in Next(s, ev).workers
    requires var p := Next(s, ev).workers[w]; (p.Acquired? || p.Performing?) && !p.parentsDone
    ensures var s' := Next(s, ev); s'.workers[w].job in s'.rows && s'.rows[s'.workers[w].job].parents != {}
  {
    if !(ev.Acquire? && ev.worker == w) {
      SameFlag(s, ev, w);
      hide Sound, Next, Enabled;
      RowKept(s, ev, s.workers[w].job);
    }
  }

  /** A worker's copy of the job is made when it acquires the job and kept from then on. */
  lemma SameFlag(s: Sys, ev: Event, w: Worker)
    requires Enabled(s, ev) && w in Next(s, ev).workers && !(ev.Acquire? && ev.worker == w)
    requires Next(s, ev).workers[w].Acquired? || Next(s, ev).workers[w].Performing?
    ensures w in s.workers && (s.workers[w].Acquired? || s.workers[w].Performing?)
    ensures var p, p' := s.workers[w], Next(s, ev).workers[w];
            p.job == p'.job && p.retry == p'.retry && p.parentsDone == p'.parentsDone
  {
    if !ByWorker(ev) { WorkersSame(s, ev); hide Next, Enabled; }
    else if ev.worker != w { WorkerFrom(s, ev, w); hide Next, Enabled; }
    else { OnlyLockGoesOn(s, ev); }
  }

  lemma WorkersSame(s: Sys, ev: Event)
    requires Enabled(s, ev) && !ByWorker(ev)
    ensures Next(s, ev).workers == s.workers
  {
  }

  lemma WorkerFrom(s: Sys, ev: Event, w: Worker)
    requires Enabled(s, ev) && ByWorker(ev) && w in Next(s, ev).workers && w != ev.worker
    ensures w in s.workers && Next(s, ev).workers[w] == s.workers[w]
  {
  }

  lemma OnlyLockGoesOn(s: Sys, ev: Event)
    requires Enabled(s, ev) && ByWorker(ev) && !ev.Acquire? && ev.worker in Next(s, ev).workers
    requires var p := Next(s, ev).workers[ev.worker]; p.Acquired? || p.Performing?
    ensures ev.Lock? && ev.worker in s.workers && s.workers[ev.worker].Acquired?
    ensures var p, p' := s.workers[ev.worker], Next(s, ev).workers[ev.worker];
            p.job == p'.job && p.retry == p'.retry && p.parentsDone == p'.parentsDone
  {
  }

  // ----- a dependent that is ready after the step

  lemma OutstandingStays(s: Sys, ev: Event, c: Job, w: Worker)
    requires Sound(s) && Enabled(s, ev) && Outstanding(s, c, w)
    requires ev != EnqueueDependents(w) && ev != Crash(w)
    ensures Outstanding(Next(s, ev), c, w)
  {
    RowKept(s, ev, c);
    hide Sound;
    if ByWorker(ev) { if ev.worker != w { WorkerStays(s, ev, w); } }
  }

  /** Looking at the dependents of a done parent releases every ready one. */
  lemma EnqueueReleases(s: Sys, ev: Event, c: Job)
    requires Enabled(s, ev) && ev.EnqueueDependents? && Ready(s, c) && Outstanding(s, c, ev.worker)
    ensures IsState(Next(s, ev), c, Pending)
  {
  }

  lemma ParentsDoneBack(s: Sys, ev: Event, c: Job)
    requires Sound(s) && Enabled(s, ev) && c in s.rows && ParentsDone(Next(s, ev), c) && !ParentsDone(s, c)
    ensures exists p :: p in s.rows[c].parents && Finishes(s, ev, p)
  {
    RowKept(s, ev, c);
    var p :| p in s.rows[c].parents && !IsState(s, p, Done);
    assert IsState(Next(s, ev), p, Done);
    BecomesDone(s, ev, p);
  }

  lemma ButtonReleases(s: Sys, p: Job, c: Job)
    requires Enabled(s, ButtonDone(p)) && c in s.rows && p in s.rows[c].parents
    requires IsState(s, c, WaitDependencies) && ParentsDone(Next(s, ButtonDone(p)), c)
    ensures !IsState(Next(s, ButtonDone(p)), c, WaitDependencies)
  {
    var rows1 := WithState(s.rows, p, Done);
    var s' := Next(s, ButtonDone(p));
    if c != p {
      forall q | q in rows1[c].parents ensures q in rows1 && rows1[q].state == Done {
        assert IsState(s', q, Done);
      }
      assert Moves(rows1, p, Done, c);
    }
  }

  /** A ready dependent was waiting before, unless a worker just put it there. */
  lemma ReadyFrom(s: Sys, ev: Event, c: Job)
    requires Sound(s) && WaitOk(s) && Enabled(s, ev) && Ready(Next(s, ev), c) && !Loses(s, ev)
    ensures c in s.rows
    ensures IsState(s, c, WaitDependencies) || (ev.Fails? && exists w :: Outstanding(s, c, w))
  {
    var s' := Next(s, ev);
    if !IsState(s, c, WaitDependencies) {
      BecomesWaiting(s, ev, c);
      if ev.Create? {
        NewRowsNotDone(s, ev, c);
      } else if ev == Requeue(c) {
        RequeuedParents(s, c);
      } else {
        FailedParents(s, ev, c);
      }
    }
  }

  lemma NewRowsNotDone(s: Sys, ev: Event, c: Job)
    requires Enabled(s, ev) && ev.Create? && c in ev.batch && ev.batch[c] != {}
    ensures !ParentsDone(Next(s, ev), c)
  {
    var p :| p in ev.batch[c];
    assert p in ev.batch.Keys;
    assert Next(s, ev).rows[p] == Row(PendingState(ev.batch[p] == {}), 0, ev.maxRetries, ev.batch[p], false);
    assert !IsState(Next(s, ev), p, Done);
  }

  lemma RequeuedParents(s: Sys, c: Job)
    requires Enabled(s, Requeue(c)) && !ParentsDone(s, c)
    ensures !ParentsDone(Next(s, Requeue(c)), c)
  {
    var s' := Next(s, Requeue(c));
    var p :| p in s.rows[c].parents && !IsState(s, p, Done);
    assert s'.rows == s.rows[c := s.rows[c].(state := WaitDependencies, retry := 0)];
    if p != c && p in s.rows { assert s'.rows[p] == s.rows[p]; }
  }

  lemma FailedParents(s: Sys, ev: Event, c: Job)
    requires Sound(s) && Enabled(s, ev) && ev.Fails? && s.workers[ev.worker].job == c && c in s.rows
    requires ParentsDone(Next(s, ev), c)
    ensures ParentsDone(s, c)
  {
    var s' := Next(s, ev);
    forall p | p in s.rows[c].parents ensures IsState(s, p, Done) {
      assert IsState(s', p, Done);
    }
  }

  lemma ReadyIsOutstanding(s: Sys, ev: Event, c: Job)
    requires Sound(s) && WaitOk(s) && NoLost(s) && Enabled(s, ev) && !Loses(s, ev) && Ready(Next(s, ev), c)
    ensures exists w :: Outstanding(Next(s, ev), c, w)
  {
    hide Sound, WaitOk, ParentsDone, Next, Enabled;
    var s' := Next(s, ev);
    ReadyFrom(s, ev, c);
    if IsState(s, c, WaitDependencies) && !ParentsDone(s, c) {
      ParentsDoneBack(s, ev, c);
      var p :| p in s.rows[c].parents && Finishes(s, ev, p);
      if ev == ButtonDone(p) {
        ButtonReleases(s, p, c);
      } else {
        SucceedOutstanding(s, ev, c);
      }
    } else {
      assert IsState(s, c, WaitDependencies) ==> Ready(s, c);
      var w :| Outstanding(s, c, w);
      if ev == EnqueueDependents(w) {
        EnqueueReleases(s, ev, c);
        assert false;
      }
      if ev == Crash(w) {
        w :| Outstanding(s, c, w) && ev != Crash(w);
      }
      OutstandingStays(s, ev, c, w);
    }
  }

  lemma SucceedOutstanding(s: Sys, ev: Event, c: Job)
    requires Enabled(s, ev) && ev.Succeed? && c in s.rows && s.workers[ev.worker].job in s.rows[c].parents
    ensures Outstanding(Next(s, ev), c, ev.worker)
  {
    RowKept(s, ev, c);
  }

  lemma LosingStep(s: Sys, ev: Event)
    requires Sound(s) && Enabled(s, ev) && Loses(s, ev)
    ensures !NoLost(Next(s, ev))
  {
    if ev.Crash? { CrashLoses(s, ev); } else { FailLoses(s, ev); }
  }

  lemma CrashLoses(s: Sys, ev: Event)
    requires Sound(s) && Enabled(s, ev) && ev.Crash? && Loses(s, ev)
    ensures !NoLost(Next(s, ev))
  {
    var s' := Next(s, ev);
    var c :| Ready(s, c) && Outstanding(s, c, ev.worker) && forall w2 :: Outstanding(s, c, w2) ==> w2 == ev.worker;
    assert Ready(s', c);
    forall w ensures !Outstanding(s', c, w) { assert Outstanding(s', c, w) ==> Outstanding(s, c, w); }
  }

  lemma FailLoses(s: Sys, ev: Event)
    requires Sound(s) && Enabled(s, ev) && ev.Fails? && Loses(s, ev)
    ensures !NoLost(Next(s, ev))
  {
    var s' := Next(s, ev);
    var c := s.workers[ev.worker].job;
    assert IsState(s', c, WaitDependencies);
    forall p | p in s'.rows[c].parents ensures IsState(s', p, Done) { assert IsState(s, p, Done) && p != c; }
    assert Ready(s', c);
    forall w ensures !Outstanding(s', c, w) { assert Outstanding(s', c, w) ==> Outstanding(s, c, w); }
  }

  /** Exactly which steps lose a dependent. */
  lemma LostExactlyWhen(s: Sys, ev: Event)
    requires Sound(s) && WaitOk(s) && NoLost(s) && Enabled(s, ev)
    ensures NoLost(Next(s, ev)) <==> !Loses(s, ev)
  {
    hide Sound, WaitOk, Next, Enabled, Loses, Ready;
    if Loses(s, ev) {
      LosingStep(s, ev);
    } else {
      forall c | Ready(Next(s, ev), c) ensures exists w :: Outstanding(Next(s, ev), c, w) {
        ReadyIsOutstanding(s, ev, c);
      }
    }
  }

  // ----- whole runs

  /** Jobs are acquired only with all parents done, and no worker dies, or gives up, between
      committing DONE and looking at the dependents. */
  predicate Clean(s: Sys, ev: Event) {
    && (ev.Acquire? ==> ParentsDone(s, ev.job))
    && (ev.Crash? ==> ev.worker in s.workers && !s.workers[ev.worker].Enqueuing?)
  }

  ghost predicate FreshCopies(s: Sys) {
    forall w :: w in s.workers && (s.workers[w].Acquired? || s.workers[w].Performing?) ==> s.workers[w].parentsDone
  }

  lemma NextFreshCopies(s: Sys, ev: Event)
    requires FreshCopies(s) && Enabled(s, ev) && Clean(s, ev)
    ensures FreshCopies(Next(s, ev))
  {
    var s' := Next(s, ev);
    forall w | w in s'.workers && (s'.workers[w].Acquired? || s'.workers[w].Performing?) ensures s'.workers[w].parentsDone {
      if !(ev.Acquire? && ev.worker == w) { SameFlag(s, ev, w); }
    }
  }

  lemma CleanNeverLoses(s: Sys, ev: Event)
    requires FreshCopies(s) && Clean(s, ev)
    ensures !Loses(s, ev)
  {
  }

  ghost predicate Kept(s: Sys) { Sound(s) && WaitOk(s) && FreshCopies(s) && NoLost(s) }

  lemma NextKept(s: Sys, ev: Event)
    requires Kept(s) && Enabled(s, ev) && Clean(s, ev)
    ensures Kept(Next(s, ev))
  {
    hide Sound, WaitOk, FreshCopies, NoLost, Next, Enabled, Clean, Loses;
    NextSound(s, ev);
    NextWaitOk(s, ev);
    NextFreshCopies(s, ev);
    CleanNeverLoses(s, ev);
    LostExactlyWhen(s, ev);
  }

  lemma {:induction false} RunKept(s: Sys, evs: seq<Event>)
    requires Kept(s) && Runs(s, evs) && Guarded(s, evs, (t, ev) => Clean(t, ev))
    ensures Kept(After(s, evs))
    decreases |evs|
  {
    hide Kept, Next, Enabled, Clean;
    if evs != [] {
      NextKept(s, evs[0]);
      RunKept(Next(s, evs[0]), evs[1..]);
    }
  }

  /** However many parents finish at once: as soon as no worker has dependents left to look at,
      no job waits whose parents are all done. */
  lemma NoDependentIsLost(evs: seq<Event>, c: Job)
    requires Runs(EMPTY, evs) && Guarded(EMPTY, evs, (t, ev) => Clean(t, ev))
    requires forall w :: w in After(EMPTY, evs).workers ==> !After(EMPTY, evs).workers[w].Enqueuing?
    ensures !Ready(After(EMPTY, evs), c)
  {
    hide Runs, After, Guarded, Clean;
    assert Kept(EMPTY) by { EmptyKept(); }
    RunKept(EMPTY, evs);
    NoneOutstanding(After(EMPTY, evs), c);
  }

  lemma EmptyKept()
    ensures Kept(EMPTY)
  {
  }

  lemma NoneOutstanding(s: Sys, c: Job)
    requires NoLost(s) && forall w :: w in s.workers ==> !s.workers[w].Enqueuing?
    ensures !Ready(s, c)
  {
    assert forall w :: !Outstanding(s, c, w);
  }

  /** Worker 7 acquires child 1 while its parent 0 has just been requeued, and remembers that the
      parent is not done. The parent is done again before the worker retries; the child is then
      sent to wait for a parent that nobody will report any more. */
  lemma StaleCopyLoses() returns (evs: seq<Event>)
    ensures Runs(EMPTY, evs)
    ensures var s := After(EMPTY, evs); Ready(s, 1) && forall w :: w in s.workers ==> !s.workers[w].Enqueuing?
  {
    var s1, s2 := Two(Pending, WaitDependencies), Two(Done, Pending);
    var s5, s6 := Two(Done, Enqueued), Two(Pending, Enqueued);
    TwoParts(Pending, WaitDependencies);
    TwoParts(Done, Pending);
    TwoParts(Done, Enqueued);
    hide Next, Enabled, Two, WithState, Runs, After, Held, Retried;
    NoSteps(EMPTY);
    Created();
    DoneReleases(s1);
    Received(s2, 1);
    var s4 := s2.(pending := s2.pending + {1});
    Dispatched(s4, 1, s5);
    ParentRequeued();
    Extend(EMPTY, [], Create(BATCH, 0), EMPTY, s1);
    evs := [] + [Create(BATCH, 0)];
    Extend(EMPTY, evs, ButtonDone(0), s1, s2);
    evs := evs + [ButtonDone(0)];
    Extend(EMPTY, evs, Read(1), s2, s2.(inbox := map[1 := Pending]));
    evs := evs + [Read(1)];
    Extend(EMPTY, evs, Apply(1, false), s2.(inbox := map[1 := Pending]), s4);
    evs := evs + [Apply(1, false)];
    Extend(EMPTY, evs, Dispatch(1), s4, s5);
    evs := evs + [Dispatch(1)];
    Extend(EMPTY, evs, Requeue(0), s5, s6);
    evs := evs + [Requeue(0)];
    evs := StaleCopyEnds(evs, s6);
  }

  lemma StaleCopyEnds(evs0: seq<Event>, s6: Sys) returns (evs: seq<Event>)
    requires Runs(EMPTY, evs0) && After(EMPTY, evs0) == s6 && s6 == Two(Pending, Enqueued)
    ensures Runs(EMPTY, evs) && After(EMPTY, evs) == Retried()
    ensures Ready(Retried(), 1) && forall w :: w in Retried().workers ==> !Retried().workers[w].Enqueuing?
  {
    RetriedReady();
    hide Next, Enabled, Two, Runs, After, Held, Retried;
    ChildTaken();
    ParentDoneAgain();
    ChildRetries();
    Extend(EMPTY, evs0, Acquire(7, 1), s6, Held(Pending, Acquired(1, 0, false), map[]));
    evs := evs0 + [Acquire(7, 1)];
    Extend(EMPTY, evs, Lock(7), Held(Pending, Acquired(1, 0, false), map[]), Held(Pending, Performing(1, 0, false), map[1 := 7]));
    evs := evs + [Lock(7)];
    Extend(EMPTY, evs, ButtonDone(0), Held(Pending, Performing(1, 0, false), map[1 := 7]), Held(Done, Performing(1, 0, false), map[1 := 7]));
    evs := evs + [ButtonDone(0)];
    Extend(EMPTY, evs, Fails(7, Retryable), Held(Done, Performing(1, 0, false), map[1 := 7]), Retried());
    evs := evs + [Fails(7, Retryable)];
  }

  /** Child 1 started, worker 7 in the given phase. */
  function Held(st0: State, phase: Phase, holder: map<Job, Worker>): Sys {
    Sys(map[0 := Row(st0, 0, 0, {}, false), 1 := Row(Started, 0, 0, {0}, true)], holder, map[7 := phase], {}, map[],
        map[0 := Tally(0, 0, 0, 0), 1 := Tally(1, 0, 0, 0)])
  }

  function Retried(): Sys {
    Sys(map[0 := Row(Done, 0, 0, {}, false), 1 := Row(WaitDependencies, 1, 0, {0}, true)], map[1 := 7], map[7 := Finishing(1)], {}, map[],
        map[0 := Tally(0, 0, 0, 0), 1 := Tally(1, 0, 0, 0)])
  }

  lemma RetriedReady()
    ensures Ready(Retried(), 1) && forall w :: w in Retried().workers ==> !Retried().workers[w].Enqueuing?
  {
  }

  lemma ParentRequeued()
    ensures var s := Two(Done, Enqueued); Enabled(s, Requeue(0)) && Next(s, Requeue(0)) == Two(Pending, Enqueued)
  {
  }

  lemma ChildTaken()
    ensures var s := Two(Pending, Enqueued);
            Enabled(s, Acquire(7, 1)) && Next(s, Acquire(7, 1)) == Held(Pending, Acquired(1, 0, false), map[])
    ensures var s := Held(Pending, Acquired(1, 0, false), map[]);
            Enabled(s, Lock(7)) && Next(s, Lock(7)) == Held(Pending, Performing(1, 0, false), map[1 := 7])
  {
    var s := Two(Pending, Enqueued);
    assert 0 in s.rows[1].parents && !ParentsDone(s, 1);
  }

  lemma ParentDoneAgain()
    ensures var s := Held(Pending, Performing(1, 0, false), map[1 := 7]);
            Enabled(s, ButtonDone(0)) && Next(s, ButtonDone(0)) == Held(Done, Performing(1, 0, false), map[1 := 7])
  {
    var rows := Held(Done, Performing(1, 0, false), map[1 := 7]).rows;
    assert WithState(Held(Pending, Performing(1, 0, false), map[1 := 7]).rows, 0, Done) == rows;
    assert MoveDependents(rows, 0, Done, Pending) == rows;
  }

  lemma ChildRetries()
    ensures var s := Held(Done, Performing(1, 0, false), map[1 := 7]);
            Enabled(s, Fails(7, Retryable)) && Next(s, Fails(7, Retryable)) == Retried()
  {
  }
}
