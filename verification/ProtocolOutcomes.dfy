/**
 What the steps of the protocol leave in the job table, said with the stored fields only, and how
 long it lasts.
 */
module JobOutcomes {
  import opened JobProtocol

  /** No row but that of `j` differs. */
  ghost predicate OnlyRow(s: Sys, s': Sys, j: Job) {
    s'.rows.Keys == s.rows.Keys && forall k :: k in s.rows && k != j ==> s'.rows[k] == s.rows[k]
  }

  /** What a worker stores: a plain error fails the job at once, a retryable one only when the
      retries are used up, a conflict or an uncounted retry never does. */
  lemma OutcomeIsStored(s: Sys, ev: Event)
    requires Sound(s) && Enabled(s, ev) && (ev.Succeed? || ev.Fails?)
    ensures var p := s.workers[ev.worker];
            && p.job in s.rows && OnlyRow(s, Next(s, ev), p.job)
            && var row, row' := s.rows[p.job], Next(s, ev).rows[p.job];
            && row'.parents == row.parents && row'.maxRetries == row.maxRetries && row'.lockRow == row.lockRow
            && (ev.Succeed? ==> row'.state == Done && row'.retry == p.retry + 1)
            && (ev.Fails? ==> row'.retry == if ev.how == IgnoredRetryable then p.retry else p.retry + 1)
            && (ev.Fails? && ev.how == Error ==> row'.state == Failed)
            && (ev.Fails? && ev.how == Retryable ==> (row'.state == Failed <==> row.maxRetries != 0 && p.retry + 1 >= row.maxRetries))
            && (ev.Fails? && (ev.how == Conflict || ev.how == IgnoredRetryable) ==> row'.state != Failed)
            && (ev.Fails? && row'.state != Failed ==> row'.state == if p.parentsDone then Pending else WaitDependencies)
  {
  }

  /** Taking a job: it is STARTED and has a lock row, and the worker has copied its retry count and
      whether all its parents are DONE. */
  lemma AcquireCopies(s: Sys, w: Worker, j: Job)
    requires Enabled(s, Acquire(w, j))
    ensures var s' := Next(s, Acquire(w, j));
            && OnlyRow(s, s', j) && s'.rows[j] == s.rows[j].(state := Started, lockRow := true)
            && w in s'.workers && s'.workers[w].Acquired? && s'.workers[w].job == j && s'.workers[w].retry == s.rows[j].retry
            && (s'.workers[w].parentsDone <==> forall p :: p in s.rows[j].parents ==> p in s.rows && s.rows[p].state == Done)
  {
  }

  /** New jobs are PENDING exactly if they depend on none, and have not been retried. */
  lemma CreatedAre(s: Sys, batch: map<Job, set<Job>>, maxRetries: nat, j: Job)
    requires Enabled(s, Create(batch, maxRetries)) && j in Next(s, Create(batch, maxRetries)).rows
    ensures var row := Next(s, Create(batch, maxRetries)).rows[j];
            && (j in batch ==> row == Row(if batch[j] == {} then Pending else WaitDependencies, 0, maxRetries, batch[j], false))
            && (j !in batch ==> j in s.rows && row == s.rows[j])
  {
  }

  /** A worker performs its job exactly if that is still STARTED and nobody has its lock row;
      otherwise it gives up and nothing changes. */
  lemma LockIsExclusive(s: Sys, w: Worker)
    requires Enabled(s, Lock(w))
    ensures var s' := Next(s, Lock(w)); var a := s.workers[w];
            && s'.rows == s.rows
            && if a.job in s.rows && s.rows[a.job].state == Started && s.rows[a.job].lockRow && a.job !in s.holder
               then s'.holder == s.holder[a.job := w] && w in s'.workers && s'.workers[w] == Performing(a.job, a.retry, a.parentsDone)
               else s'.holder == s.holder && w !in s'.workers
  {
  }

  /** The worker whose outcome for `j` this step stores. */
  predicate StoresFor(s: Sys, ev: Event, j: Job) {
    (ev.Succeed? || ev.Fails?) && ev.worker in s.workers && s.workers[ev.worker].Performing? && s.workers[ev.worker].job == j
  }

  /** The tally of a job counts exactly its starts, its conflicts, its uncounted retries, and by how
      much outcomes set its retry count back; a requeue begins a new one. */
  lemma TallyIsExact(s: Sys, ev: Event, j: Job)
    requires Enabled(s, ev) && j in s.rows && !ev.Create?
    ensures var n, n' := TallyOf(s, j), TallyOf(Next(s, ev), j);
            && (ev == Requeue(j) ==> n' == Tally(0, 0, 0, 0))
            && (ev != Requeue(j) ==>
                  && n'.starts == n.starts + (if ev.Acquire? && ev.job == j then 1 else 0)
                  && n'.conflicts == n.conflicts + (if StoresFor(s, ev, j) && ev.Fails? && ev.how == Conflict then 1 else 0)
                  && n'.ignored == n.ignored + (if StoresFor(s, ev, j) && ev.Fails? && ev.how == IgnoredRetryable then 1 else 0)
                  && n'.rewound == n.rewound + (if StoresFor(s, ev, j) && s.workers[ev.worker].retry < s.rows[j].retry
                                                then s.rows[j].retry - s.workers[ev.worker].retry else 0))
  {
  }

  /** A job found dead goes back to PENDING, or fails if it has been retried too often; only a
      STARTED one is counted as retried. */
  lemma DeadIsRequeued(s: Sys, j: Job)
    requires Enabled(s, RequeueDead(j))
    ensures var s' := Next(s, RequeueDead(j));
            && OnlyRow(s, s', j) && s'.rows[j].parents == s.rows[j].parents
            && (s'.rows[j].state == Failed <==> s.rows[j].maxRetries != 0 && s.rows[j].retry > s.rows[j].maxRetries)
            && (s'.rows[j].state != Failed ==> s'.rows[j].state == Pending)
            && s'.rows[j].retry == if s.rows[j].state == Started then s.rows[j].retry + 1 else s.rows[j].retry
  {
  }

  /** A manual requeue starts counting anew and waits for the parents if they are not done. */
  lemma RequeueStartsAnew(s: Sys, j: Job)
    requires Enabled(s, Requeue(j))
    ensures var s' := Next(s, Requeue(j));
            && OnlyRow(s, s', j) && s'.rows[j].retry == 0 && s'.rows[j].parents == s.rows[j].parents
            && (s'.rows[j].state == Pending || s'.rows[j].state == WaitDependencies)
            && (s'.rows[j].state == Pending <==> forall p :: p in s.rows[j].parents ==> p in s.rows && s.rows[p].state == Done)
  {
  }

  /** `c` waits, and of its parents all are in state `st` or are `j`, which is one of them. */
  predicate LastWas(s: Sys, j: Job, st: State, c: Job) {
    && c in s.rows && s.rows[c].state == WaitDependencies && j in s.rows[c].parents
    && forall p :: p in s.rows[c].parents ==> p in s.rows && (p == j || s.rows[p].state == st)
  }

  /** Exactly the children for which `j` was the last parent to get there follow. */
  ghost predicate Follow(s: Sys, s': Sys, j: Job, st: State, to: State) {
    s'.rows.Keys == s.rows.Keys && forall c :: c in s.rows && c != j ==>
      s'.rows[c] == if LastWas(s, j, st, c) then s.rows[c].(state := to) else s.rows[c]
  }

  lemma MovesMeans(s: Sys, j: Job, st: State, c: Job)
    requires j in s.rows && c in s.rows && c != j
    ensures Moves(WithState(s.rows, j, st), j, st, c) <==> LastWas(s, j, st, c)
  {
  }

  lemma Spreads(s: Sys, s': Sys, j: Job, st: State, to: State)
    requires j in s.rows && st != WaitDependencies && s'.rows == MoveDependents(WithState(s.rows, j, st), j, st, to)
    ensures IsState(s', j, st) && Follow(s, s', j, st, to)
  {
    forall c | c in s.rows && c != j ensures s'.rows[c] == if LastWas(s, j, st, c) then s.rows[c].(state := to) else s.rows[c] {
      MovesMeans(s, j, st, c);
    }
  }

  /** Setting a job to done by hand: exactly the children that waited for it alone become PENDING. */
  lemma DoneSpreads(s: Sys, j: Job)
    requires Enabled(s, ButtonDone(j))
    ensures var s' := Next(s, ButtonDone(j)); IsState(s', j, Done) && Follow(s, s', j, Done, Pending)
  {
    Spreads(s, Next(s, ButtonDone(j)), j, Done, Pending);
  }

  /** Cancelling a job by hand: exactly the children whose other parents are all cancelled are
      cancelled with it. */
  lemma CancelSpreads(s: Sys, j: Job)
    requires Enabled(s, ButtonCancelled(j))
    ensures var s' := Next(s, ButtonCancelled(j)); IsState(s', j, Cancelled) && Follow(s, s', j, Cancelled, Cancelled)
  {
    Spreads(s, Next(s, ButtonCancelled(j)), j, Cancelled, Cancelled);
  }

  /** A worker that looks at the dependents of its job releases exactly those whose parents are
      all DONE. */
  lemma DependentsAreReleased(s: Sys, w: Worker, c: Job)
    requires Enabled(s, EnqueueDependents(w)) && c in s.rows
    ensures var s' := Next(s, EnqueueDependents(w)); var j := s.workers[w].job;
            && c in s'.rows
            && s'.rows[c] == if s.rows[c].state == WaitDependencies && j in s.rows[c].parents
                                && (forall p :: p in s.rows[c].parents ==> p in s.rows && s.rows[p].state == Done)
                             then s.rows[c].(state := Pending) else s.rows[c]
  {
  }

  /** What may be done by hand: a job that is not STARTED, DONE or CANCELLED can be set to done or
      cancelled, and one that is DONE, CANCELLED or FAILED can be requeued. */
  lemma ByHandWhen(s: Sys, j: Job)
    requires j in s.rows
    ensures Enabled(s, ButtonDone(j)) <==> s.rows[j].state != Started && s.rows[j].state != Done && s.rows[j].state != Cancelled
    ensures Enabled(s, ButtonCancelled(j)) <==> s.rows[j].state != Started && s.rows[j].state != Done && s.rows[j].state != Cancelled
    ensures Enabled(s, Requeue(j)) <==> s.rows[j].state == Done || s.rows[j].state == Cancelled || s.rows[j].state == Failed
  {
  }

  /** A runner that starts again holds nothing and has read nothing, and no row is touched. */
  lemma RestartForgets(s: Sys)
    ensures Enabled(s, ResetRunner)
    ensures var s' := Next(s, ResetRunner); s'.pending == {} && s'.inbox == map[] && s'.rows == s.rows && s'.workers == s.workers
  {
  }

  // ------------------------------------------------------------------------ how long it lasts

  predicate TouchedByHand(ev: Event, j: Job) { ev == Requeue(j) || ev == ButtonDone(j) || ev == ButtonCancelled(j) }

  /** Over with, as far as the runner and the workers are concerned. */
  ghost predicate Parked(s: Sys, j: Job, st: State) {
    IsState(s, j, st) && j !in s.pending && (j in s.inbox ==> s.inbox[j] != Pending)
  }

  lemma ParkedStays(s: Sys, ev: Event, j: Job, st: State)
    requires Sound(s) && Enabled(s, ev) && Parked(s, j, st) && st in {Done, Cancelled, Failed} && !TouchedByHand(ev, j)
    ensures Parked(Next(s, ev), j, st)
  {
    ParkedRow(s, ev, j, st);
    if j in Next(s, ev).pending { PendingFrom(s, ev, j); }
    if j in Next(s, ev).inbox { InboxFrom(s, ev, j); }
  }

  lemma ParkedRow(s: Sys, ev: Event, j: Job, st: State)
    requires Sound(s) && Enabled(s, ev) && IsState(s, j, st) && j !in s.pending && st in {Done, Cancelled, Failed} && !TouchedByHand(ev, j)
    ensures IsState(Next(s, ev), j, st)
  {
    if ev.Succeed? || ev.Fails? { assert IsState(s, s.workers[ev.worker].job, Started); }
  }

  lemma {:induction false} RunParked(s: Sys, evs: seq<Event>, j: Job, st: State)
    requires Sound(s) && Runs(s, evs) && Parked(s, j, st) && st in {Done, Cancelled, Failed}
    requires forall k :: 0 <= k < |evs| ==> !TouchedByHand(evs[k], j)
    ensures IsState(After(s, evs), j, st)
    decreases |evs|
  {
    hide Sound, Next, Enabled, TouchedByHand;
    if evs != [] {
      assert !TouchedByHand(evs[0], j);
      NextSound(s, evs[0]);
      ParkedStays(s, evs[0], j, st);
      forall k | 0 <= k < |evs[1..]| ensures !TouchedByHand(evs[1..][k], j) { assert evs[1..][k] == evs[k + 1]; }
      RunParked(Next(s, evs[0]), evs[1..], j, st);
    }
  }

  /** While a job is performed the runner does not hold it, so its outcome is final: a job that
      succeeded stays DONE, and one that raised a plain error stays FAILED, until somebody
      touches it by hand. */
  lemma OutcomeIsFinal(s: Sys, ev: Event, evs: seq<Event>)
    requires Sound(s) && Enabled(s, ev) && (ev.Succeed? || (ev.Fails? && ev.how == Error)) && Runs(Next(s, ev), evs)
    requires forall k :: 0 <= k < |evs| ==> !TouchedByHand(evs[k], s.workers[ev.worker].job)
    ensures IsState(After(Next(s, ev), evs), s.workers[ev.worker].job, if ev.Succeed? then Done else Failed)
  {
    var j := s.workers[ev.worker].job;
    OutcomeIsStored(s, ev);
    NextSound(s, ev);
    assert IsState(s, j, Started) && Busy(s, j);
    var s' := Next(s, ev);
    assert s'.pending == s.pending && s'.inbox == s.inbox;
    hide Next, Enabled, Runs, After, TouchedByHand;
    RunParked(s', evs, j, if ev.Succeed? then Done else Failed);
  }
}
