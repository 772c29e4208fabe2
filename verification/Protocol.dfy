/**
 The job execution protocol: one runner, any number of workers, the dead-job requeuer and the
 manual buttons, all acting on the job table. One event is one committed transaction or one
 SQL statement; a crash is an event too.
 */
module JobProtocol {

  type Job = nat
  type Worker = nat

  datatype State = WaitDependencies | Pending | Enqueued | Started | Done | Cancelled | Failed

  /** A row of the job table. `lockRow` says that its row of the lock table exists. */
  datatype Row = Row(state: State, retry: nat, maxRetries: nat, parents: set<Job>, lockRow: bool)

  /**
   Where a worker stands. `retry` and `parentsDone` are what its in-memory copy of the job
   holds since it was loaded: storing the STARTED state also loads the parents, and those
   copies are not read again.
   */
  datatype Phase =
    | Acquired(job: Job, retry: nat, parentsDone: bool)
    | Performing(job: Job, retry: nat, parentsDone: bool)
    | Finishing(job: Job)    // outcome committed by another cursor, job lock still held
    | Enqueuing(job: Job)    // DONE committed, dependents not yet looked at

  /** Since the last manual requeue: how often started, how many conflict and ignored retries,
      and by how much outcomes set the retry count back that was stored meanwhile. */
  datatype Tally = Tally(starts: nat, conflicts: nat, ignored: nat, rewound: nat)

  /** `pending` is what the runner holds as pending; `inbox` holds rows it has read but not applied. */
  datatype Sys = Sys(
    rows: map<Job, Row>, holder: map<Job, Worker>, workers: map<Worker, Phase>,
    pending: set<Job>, inbox: map<Job, State>, tally: map<Job, Tally>)

  datatype Outcome = Retryable | IgnoredRetryable | Conflict | Error

  datatype Event =
    | Create(batch: map<Job, set<Job>>, maxRetries: nat)
    | Read(job: Job)
    | Apply(job: Job, dropped: bool)
    | Dispatch(job: Job)
    | ResetRunner
    | RequeueDead(job: Job)
    | Acquire(worker: Worker, job: Job)
    | Lock(worker: Worker)
    | Succeed(worker: Worker)
    | Fails(worker: Worker, how: Outcome)
    | Release(worker: Worker)
    | EnqueueDependents(worker: Worker)
    | Crash(worker: Worker)
    | ButtonDone(job: Job)
    | ButtonCancelled(job: Job)
    | Requeue(job: Job)

  // ------------------------------------------------------------------- queries on the table

  predicate IsState(s: Sys, j: Job, st: State) { j in s.rows && s.rows[j].state == st }

  predicate Busy(s: Sys, j: Job) { IsState(s, j, Enqueued) || IsState(s, j, Started) }

  predicate ParentsAre(rows: map<Job, Row>, j: Job, st: State) {
    j in rows && forall p :: p in rows[j].parents ==> p in rows && rows[p].state == st
  }

  predicate ParentsDone(s: Sys, j: Job) { ParentsAre(s.rows, j, Done) }

  function WithState(rows: map<Job, Row>, j: Job, st: State): map<Job, Row> {
    if j in rows then rows[j := rows[j].(state := st)] else rows
  }

  /** The common query: children of `j` that wait and whose parents are all in state `from`. */
  predicate Moves(rows: map<Job, Row>, j: Job, from: State, c: Job) {
    c in rows && j in rows[c].parents && rows[c].state == WaitDependencies && ParentsAre(rows, c, from)
  }

  function MoveDependents(rows: map<Job, Row>, j: Job, from: State, to: State): map<Job, Row> {
    map c | c in rows :: if Moves(rows, j, from, c) then rows[c].(state := to) else rows[c]
  }

  /** `Job.set_pending`, decided on the given knowledge of the parents. */
  function PendingState(parentsDone: bool): State { if parentsDone then Pending else WaitDependencies }

  // ------------------------------------------------------------------------------ steps

  predicate TooManyRetries(row: Row) { row.maxRetries != 0 && row.retry > row.maxRetries }

  /** `Job.perform` turns a retryable error into a failure once the retries are used up. */
  predicate GivesUp(maxRetries: nat, retry: nat, how: Outcome) {
    how == Error || (how == Retryable && maxRetries != 0 && retry + 1 >= maxRetries)
  }

  function StoredRetry(retry: nat, how: Outcome): nat { if how == IgnoredRetryable then retry else retry + 1 }

  function Unlock(holder: map<Job, Worker>, w: Worker): map<Job, Worker> {
    map j | j in holder && holder[j] != w :: holder[j]
  }

  predicate Enabled(s: Sys, ev: Event) {
    match ev
    case Create(batch, _) =>
      && batch.Keys !! s.rows.Keys
      && forall j :: j in batch ==> batch[j] <= batch.Keys
    case Read(j) => j in s.rows
    case Apply(j, _) => j in s.inbox
    case Dispatch(j) => j in s.pending && s.inbox == map[]
    case ResetRunner => true
    case RequeueDead(j) => Busy(s, j) && (!s.rows[j].lockRow || j !in s.holder)
    case Acquire(w, j) => w !in s.workers && IsState(s, j, Enqueued)
    case Lock(w) => w in s.workers && s.workers[w].Acquired?
    case Succeed(w) => w in s.workers && s.workers[w].Performing?
    case Fails(w, _) => w in s.workers && s.workers[w].Performing?
    case Release(w) => w in s.workers && s.workers[w].Finishing?
    case EnqueueDependents(w) => w in s.workers && s.workers[w].Enqueuing?
    case Crash(w) => w in s.workers
    case ButtonDone(j) => j in s.rows && s.rows[j].state in {WaitDependencies, Pending, Enqueued, Failed}
    case ButtonCancelled(j) => j in s.rows && s.rows[j].state in {WaitDependencies, Pending, Enqueued, Failed}
    case Requeue(j) => j in s.rows && s.rows[j].state in {Failed, Done, Cancelled}
  }

  function CreateRows(s: Sys, batch: map<Job, set<Job>>, maxRetries: nat): Sys {
    s.(rows := s.rows + map j | j in batch :: Row(PendingState(batch[j] == {}), 0, maxRetries, batch[j], false),
       tally := s.tally + map j | j in batch :: Tally(0, 0, 0, 0))
  }

  /**
   What the runner holds as pending once the channel manager has been told the state of a job. A
   job that waits is dropped only if its object is replaced; one that is ENQUEUED or STARTED
   may stay held if it already runs in its own channel and is queued further up.
   */
  function Heard(pending: set<Job>, j: Job, st: State, dropped: bool): set<Job> {
    match st
    case Pending => pending + {j}
    case Done => pending - {j}
    case Cancelled => pending - {j}
    case Failed => pending - {j}
    case _ => if dropped then pending - {j} else pending
  }

  /** The runner feeds a row to the channel manager. */
  function ApplyRow(s: Sys, j: Job, dropped: bool): Sys
    requires j in s.inbox
  {
    s.(pending := Heard(s.pending, j, s.inbox[j], dropped), inbox := s.inbox - {j})
  }

  function RequeueDeadRow(row: Row): Row {
    row.(state := if TooManyRetries(row) then Failed else Pending,
         retry := if row.state == Started then row.retry + 1 else row.retry)
  }

  function TallyOf(s: Sys, j: Job): Tally { if j in s.tally then s.tally[j] else Tally(0, 0, 0, 0) }

  /** A worker whose copy has a lower retry count than the row sets the row back. */
  function Rewind(n: Tally, stored: nat, copy: nat): Tally {
    if copy < stored then n.(rewound := n.rewound + stored - copy) else n
  }

  function AcquireJob(s: Sys, w: Worker, j: Job): Sys
    requires j in s.rows
  {
    var row := s.rows[j];
    var n := TallyOf(s, j);
    s.(rows := s.rows[j := row.(state := Started, lockRow := true)],
       workers := s.workers[w := Acquired(j, row.retry, ParentsDone(s, j))],
       tally := s.tally[j := n.(starts := n.starts + 1)])
  }

  function LockJob(s: Sys, w: Worker): Sys
    requires w in s.workers && s.workers[w].Acquired?
  {
    var a := s.workers[w];
    if IsState(s, a.job, Started) && s.rows[a.job].lockRow && a.job !in s.holder then
      s.(holder := s.holder[a.job := w], workers := s.workers[w := Performing(a.job, a.retry, a.parentsDone)])
    else s.(workers := s.workers - {w})
  }

  function SucceedJob(s: Sys, w: Worker): Sys
    requires w in s.workers && s.workers[w].Performing?
  {
    var p := s.workers[w];
    var s1 := s.(workers := s.workers[w := Enqueuing(p.job)], holder := Unlock(s.holder, w));
    if p.job in s.rows then
      s1.(rows := s.rows[p.job := s.rows[p.job].(state := Done, retry := p.retry + 1)],
          tally := s.tally[p.job := Rewind(TallyOf(s, p.job), s.rows[p.job].retry, p.retry)])
    else s1
  }

  function FailJob(s: Sys, w: Worker, how: Outcome): Sys
    requires w in s.workers && s.workers[w].Performing?
  {
    var p := s.workers[w];
    var s1 := s.(workers := s.workers[w := Finishing(p.job)]);
    if p.job !in s.rows then s1
    else
      var row := s.rows[p.job];
      var st := if GivesUp(row.maxRetries, p.retry, how) then Failed else PendingState(p.parentsDone);
      var n := Rewind(TallyOf(s, p.job), row.retry, p.retry);
      s1.(rows := s.rows[p.job := row.(state := st, retry := StoredRetry(p.retry, how))],
          tally := s.tally[p.job := match how
                                    case Conflict => n.(conflicts := n.conflicts + 1)
                                    case IgnoredRetryable => n.(ignored := n.ignored + 1)
                                    case _ => n])
  }

  function Next(s: Sys, ev: Event): Sys
    requires Enabled(s, ev)
  {
    match ev
    case Create(batch, maxRetries) => CreateRows(s, batch, maxRetries)
    case Read(j) => s.(inbox := s.inbox[j := s.rows[j].state])
    case Apply(j, dropped) => ApplyRow(s, j, dropped)
    case Dispatch(j) => s.(rows := WithState(s.rows, j, Enqueued), pending := s.pending - {j})
    case ResetRunner => s.(pending := {}, inbox := map[])
    case RequeueDead(j) => s.(rows := s.rows[j := RequeueDeadRow(s.rows[j])])
    case Acquire(w, j) => AcquireJob(s, w, j)
    case Lock(w) => LockJob(s, w)
    case Succeed(w) => SucceedJob(s, w)
    case Fails(w, how) => FailJob(s, w, how)
    case Release(w) => s.(workers := s.workers - {w}, holder := Unlock(s.holder, w))
    case EnqueueDependents(w) =>
      s.(rows := MoveDependents(s.rows, s.workers[w].job, Done, Pending), workers := s.workers - {w})
    case Crash(w) => s.(workers := s.workers - {w}, holder := Unlock(s.holder, w))
    case ButtonDone(j) => s.(rows := MoveDependents(WithState(s.rows, j, Done), j, Done, Pending))
    case ButtonCancelled(j) => s.(rows := MoveDependents(WithState(s.rows, j, Cancelled), j, Cancelled, Cancelled))
    case Requeue(j) =>
      s.(rows := s.rows[j := s.rows[j].(state := PendingState(ParentsDone(s, j)), retry := 0)],
         tally := s.tally[j := Tally(0, 0, 0, 0)])
  }

  const EMPTY := Sys(map[], map[], map[], {}, map[], map[])

  ghost predicate Runs(s: Sys, evs: seq<Event>)
    decreases |evs|
  {
    evs != [] ==> Enabled(s, evs[0]) && Runs(Next(s, evs[0]), evs[1..])
  }

  ghost function After(s: Sys, evs: seq<Event>): Sys
    requires Runs(s, evs)
    decreases |evs|
  {
    if evs == [] then s else After(Next(s, evs[0]), evs[1..])
  }

  /** Every step of the run satisfies `guard` in the state it is taken in. */
  ghost predicate Guarded(s: Sys, evs: seq<Event>, guard: (Sys, Event) -> bool)
    requires Runs(s, evs)
    decreases |evs|
  {
    evs != [] ==> guard(s, evs[0]) && Guarded(Next(s, evs[0]), evs[1..], guard)
  }

  // -------------------------------------------------------------------- mutual exclusion

  predicate Holds(s: Sys, w: Worker, j: Job) {
    w in s.workers && (s.workers[w].Performing? || s.workers[w].Finishing?) && s.workers[w].job == j
  }

  /** What the runner holds as pending, or is about to, is neither ENQUEUED nor STARTED. */
  ghost predicate ViewOk(s: Sys) {
    && (forall j :: j in s.pending ==> j in s.rows && !Busy(s, j))
    && (forall j :: j in s.inbox ==> j in s.rows)
    && (forall j :: j in s.inbox && s.inbox[j] == Pending ==> !Busy(s, j))
  }

  ghost predicate LocksOk(s: Sys) {
    && (forall j :: j in s.holder ==> Holds(s, s.holder[j], j))
    && (forall w, j :: Holds(s, w, j) ==> j in s.holder && s.holder[j] == w)
    && (forall w :: w in s.workers ==> s.workers[w].job in s.rows)
    && (forall w :: w in s.workers && s.workers[w].Performing? ==>
          IsState(s, s.workers[w].job, Started) && s.rows[s.workers[w].job].lockRow)
  }

  ghost predicate Sound(s: Sys) { ViewOk(s) && LocksOk(s) }

  predicate ByRunner(ev: Event) {
    ev.Create? || ev.Read? || ev.Apply? || ev.Dispatch? || ev.ResetRunner? || ev.RequeueDead?
  }

  predicate ByHand(ev: Event) { ev.ButtonDone? || ev.ButtonCancelled? || ev.Requeue? }

  predicate ByWorker(ev: Event) { !ByRunner(ev) && !ByHand(ev) }

  /** Nobody but the runner makes a row ENQUEUED, and nobody but an acquiring worker STARTED. */
  lemma BusyOnlyBy(s: Sys, ev: Event, j: Job)
    requires Enabled(s, ev) && j in s.rows
    ensures Busy(Next(s, ev), j) ==> Busy(s, j) || ev == Dispatch(j)
  {
  }

  /** Rows never disappear, and what they depend on never changes. */
  lemma RowKept(s: Sys, ev: Event, j: Job)
    requires Enabled(s, ev) && j in s.rows
    ensures j in Next(s, ev).rows && Next(s, ev).rows[j].parents == s.rows[j].parents
    ensures Next(s, ev).rows[j].maxRetries == s.rows[j].maxRetries
    ensures s.rows[j].lockRow ==> Next(s, ev).rows[j].lockRow
  {
  }

  lemma NextViewOk(s: Sys, ev: Event)
    requires Sound(s) && Enabled(s, ev)
    ensures ViewOk(Next(s, ev))
  {
    var s' := Next(s, ev);
    hide Next, Enabled, LocksOk, Busy;
    forall j | j in s'.pending ensures j in s'.rows && !Busy(s', j) {
      PendingFrom(s, ev, j);
      BusyOnlyBy(s, ev, j);
      RowKept(s, ev, j);
    }
    forall j | j in s'.inbox ensures j in s'.rows && (s'.inbox[j] == Pending ==> !Busy(s', j)) {
      InboxFrom(s, ev, j);
      BusyOnlyBy(s, ev, j);
      RowKept(s, ev, j);
    }
  }

  /** Where the runner's picture of pending jobs comes from. */
  lemma PendingFrom(s: Sys, ev: Event, j: Job)
    requires Enabled(s, ev) && j in Next(s, ev).pending
    ensures ev != Dispatch(j) && (j in s.pending || (j in s.inbox && s.inbox[j] == Pending))
  {
  }

  lemma InboxFrom(s: Sys, ev: Event, j: Job)
    requires Enabled(s, ev) && j in Next(s, ev).inbox
    ensures !ev.Dispatch? && (j in s.inbox || j in s.rows)
    ensures Next(s, ev).inbox[j] == Pending ==> (j in s.inbox && s.inbox[j] == Pending) || (IsState(s, j, Pending) && !Busy(s, j))
  {
  }

  lemma NextLocksOk(s: Sys, ev: Event)
    requires Sound(s) && Enabled(s, ev)
    ensures LocksOk(Next(s, ev))
  {
    if ByRunner(ev) { RunnerLocksOk(s, ev); }
    else if ByHand(ev) { HandLocksOk(s, ev); }
    else { WorkerLocksOk(s, ev); }
  }

  /** While a worker performs a job, neither the runner nor a button touches its row. */
  lemma StaysStarted(s: Sys, ev: Event, w: Worker)
    requires Sound(s) && Enabled(s, ev) && !ByWorker(ev)
    requires w in s.workers && s.workers[w].Performing?
    ensures IsState(Next(s, ev), s.workers[w].job, Started)
  {
    var j := s.workers[w].job;
    assert Holds(s, w, j);
    assert IsState(s, j, Started) && s.rows[j].lockRow && j in s.holder && j !in s.pending;
    hide Sound;
    StartedUntouched(s, ev, j);
  }

  lemma StartedUntouched(s: Sys, ev: Event, j: Job)
    requires Enabled(s, ev) && !ByWorker(ev)
    requires IsState(s, j, Started) && s.rows[j].lockRow && j in s.holder && j !in s.pending
    ensures IsState(Next(s, ev), j, Started)
  {
  }

  lemma RunnerLocksOk(s: Sys, ev: Event)
    requires Sound(s) && Enabled(s, ev) && ByRunner(ev)
    ensures LocksOk(Next(s, ev))
  {
    var s' := Next(s, ev);
    assert s'.workers == s.workers && s'.holder == s.holder;
    SameWorkersLocksOk(s, ev, s');
  }

  lemma HandLocksOk(s: Sys, ev: Event)
    requires Sound(s) && Enabled(s, ev) && ByHand(ev)
    ensures LocksOk(Next(s, ev))
  {
    var s' := Next(s, ev);
    assert s'.workers == s.workers && s'.holder == s.holder;
    SameWorkersLocksOk(s, ev, s');
  }

  lemma SameWorkersLocksOk(s: Sys, ev: Event, s': Sys)
    requires Sound(s) && Enabled(s, ev) && !ByWorker(ev) && s' == Next(s, ev)
    requires s'.workers == s.workers && s'.holder == s.holder
    ensures LocksOk(s')
  {
    hide Next, Enabled;
    forall w | w in s'.workers ensures s'.workers[w].job in s'.rows && (s'.workers[w].Performing? ==>
      IsState(s', s'.workers[w].job, Started) && s'.rows[s'.workers[w].job].lockRow)
    {
      RowKept(s, ev, s.workers[w].job);
      if s.workers[w].Performing? { StaysStarted(s, ev, w); }
    }
    forall w, j | Holds(s', w, j) ensures j in s'.holder && s'.holder[j] == w { assert Holds(s, w, j); }
    forall j | j in s'.holder ensures Holds(s', s'.holder[j], j) { assert Holds(s, s.holder[j], j); }
  }

  lemma WorkerLocksOk(s: Sys, ev: Event)
    requires Sound(s) && Enabled(s, ev) && ByWorker(ev)
    ensures LocksOk(Next(s, ev))
  {
    var s' := Next(s, ev);
    var me := ev.worker;
    forall w | w in s'.workers ensures s'.workers[w].job in s'.rows {
      WorkerJob(s, ev, w);
    }
    forall w | w in s'.workers && s'.workers[w].Performing?
      ensures IsState(s', s'.workers[w].job, Started) && s'.rows[s'.workers[w].job].lockRow
    {
      OtherPerforming(s, ev, w);
    }
    forall w, j | Holds(s', w, j) ensures j in s'.holder && s'.holder[j] == w { HolderFrom(s, ev, w, j); }
    forall j | j in s'.holder ensures Holds(s', s'.holder[j], j) { HolderTo(s, ev, j); }
  }

  lemma WorkerJob(s: Sys, ev: Event, w: Worker)
    requires Sound(s) && Enabled(s, ev) && ByWorker(ev) && w in Next(s, ev).workers
    ensures Next(s, ev).workers[w].job in Next(s, ev).rows
    ensures w != ev.worker ==> w in s.workers && Next(s, ev).workers[w] == s.workers[w]
  {
  }

  lemma OtherPerforming(s: Sys, ev: Event, w: Worker)
    requires Sound(s) && Enabled(s, ev) && ByWorker(ev)
    requires w in Next(s, ev).workers && Next(s, ev).workers[w].Performing?
    ensures var s' := Next(s, ev); IsState(s', s'.workers[w].job, Started) && s'.rows[s'.workers[w].job].lockRow
  {
    var me := ev.worker;
    if w != me {
      WorkerJob(s, ev, w);
      assert Holds(s, w, s.workers[w].job);
      if me in s.workers && s.workers[me].Performing? { assert Holds(s, me, s.workers[me].job); }
    }
  }

  lemma HolderFrom(s: Sys, ev: Event, w: Worker, j: Job)
    requires Sound(s) && Enabled(s, ev) && ByWorker(ev) && Holds(Next(s, ev), w, j)
    ensures j in Next(s, ev).holder && Next(s, ev).holder[j] == w
  {
    if w != ev.worker { WorkerJob(s, ev, w); assert Holds(s, w, j); }
    else if w in s.workers && s.workers[w].Performing? { assert Holds(s, w, s.workers[w].job); }
  }

  lemma HolderTo(s: Sys, ev: Event, j: Job)
    requires Sound(s) && Enabled(s, ev) && ByWorker(ev) && j in Next(s, ev).holder
    ensures Holds(Next(s, ev), Next(s, ev).holder[j], j)
  {
    var s' := Next(s, ev);
    var w := s'.holder[j];
    if j in s.holder {
      assert s.holder[j] == w && Holds(s, w, j);
      if w == ev.worker { assert Holds(s', w, j); } else { WorkerStays(s, ev, w); }
    }
  }

  lemma WorkerStays(s: Sys, ev: Event, w: Worker)
    requires Enabled(s, ev) && ByWorker(ev) && w in s.workers && w != ev.worker
    ensures w in Next(s, ev).workers && Next(s, ev).workers[w] == s.workers[w]
  {
  }

  lemma NextSound(s: Sys, ev: Event)
    requires Sound(s) && Enabled(s, ev)
    ensures Sound(Next(s, ev))
  {
    NextViewOk(s, ev);
    NextLocksOk(s, ev);
  }

  lemma {:induction false} RunSound(s: Sys, evs: seq<Event>)
    requires Sound(s) && Runs(s, evs)
    ensures Sound(After(s, evs))
    decreases |evs|
  {
    hide Sound, Next, Enabled;
    if evs != [] {
      NextSound(s, evs[0]);
      RunSound(Next(s, evs[0]), evs[1..]);
    }
  }

  /** In every interleaving at most one worker performs a job, and its row stays STARTED. */
  lemma AtMostOnePerforms(evs: seq<Event>, w1: Worker, w2: Worker)
    requires Runs(EMPTY, evs)
    requires var s := After(EMPTY, evs);
             w1 in s.workers && w2 in s.workers && s.workers[w1].Performing? && s.workers[w2].Performing?
             && s.workers[w1].job == s.workers[w2].job
    ensures w1 == w2
    ensures var s := After(EMPTY, evs); IsState(s, s.workers[w1].job, Started)
  {
    hide Runs, After;
    RunSound(EMPTY, evs);
    OnePerformer(After(EMPTY, evs), w1, w2);
  }

  lemma OnePerformer(s: Sys, w1: Worker, w2: Worker)
    requires Sound(s) && w1 in s.workers && w2 in s.workers && s.workers[w1].Performing? && s.workers[w2].Performing?
    requires s.workers[w1].job == s.workers[w2].job
    ensures w1 == w2 && IsState(s, s.workers[w1].job, Started)
  {
    assert Holds(s, w1, s.workers[w1].job) && Holds(s, w2, s.workers[w1].job);
  }
}
