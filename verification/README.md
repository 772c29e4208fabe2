# Verified model of the job queue and workflow executor

This project models, in Dafny, the parts of the repository whose correctness rests on several
functions at once, and proves what they are meant to guarantee for all inputs and all runs.

* **The channel scheduler** (`queue_job/jobrunner/channels.py`). A tree of channels, each with a
  lazy-deletion priority queue split into due and deferred jobs, a set of running and a set of
  failed jobs, a capacity, a throttle and a sequential flag. `JobQueue`, `ChannelTree`,
  `ChannelDrain`, `Traversal`, `Frontier`, `SchedulerRuns`, `NotifyEffect`, `HeapKeys`, `SchedulerLimits`,
  `PassYield`, `YieldExactly` and `Sleep` hold the specification and its properties; `ChannelManagement` is the program itself,
  a class whose methods update the channels in place and are proved to compute the
  specification.
* **The job execution protocol** (`runner.py`, `controllers/main.py`, `job.py`,
  `models/queue_job.py`). One runner, any number of workers, the dead-job requeuer and the manual
  buttons, as a state machine in which each committed transaction, SQL statement or crash is one
  step (`JobProtocol`, `JobOutcomes`, `JobDependencies`, `JobRetries`). `RunnerView` ties the jobs its runner holds as
  pending to the channel tree.
* **The job-graph builder** (`queue_job/delay.py`). Chains, groups and `on_done` are compiled to a
  flat dependency graph, which is sorted topologically (`JobGraph`, `GraphPaths`, `Delayables`,
  `DelayableWorkspace`, `DelayableMeaning`, `DelayableTree`, `DelayableExactness`, `DelayableOrder`).
* **The workflow executor** (`workflow_executor.py`, `runners/loop_runner.py`). A stack machine over
  a graph that may have cycles, with a preview variant and a stateful loop node
  (`WorkflowMachine`, `WorkflowData`, `WorkflowRuns`, `WorkflowTermination`, `WorkflowPreview`, `LoopNode`,
  `WorkflowLoops`, `WorkflowExecution`).
* **The revision history** (`workflow_field_history_mixin.py`). Saving, pruning, milestones and
  restoring over a content-addressed store (`SnapshotHistory`, `HistoryRuns`, `VersionedRecord`).

`dafny verify dfyconfig.toml` checks the whole project.

## How to read it

Code that changes things step by step is a class or a method with loops; its `ensures` ties the new
state to a function of the old one, and the lemmas are about that function. Wherever the code
recurses over the channel tree, the proofs go through one fact, `Traversal.PassIsSweep`: a pass is
the same as pulling jobs up, channel by channel, in post-order. What an operation does is said a
second time without the functions that compute it, with settings, contents and stored fields only:
`YieldExactly`, `NotifyEffect`, `JobOutcomes` and `WorkflowData` are made of such statements.

Two invariants recur as assumptions. `Good` collects what every run of the channel
manager keeps; every theorem about a single pass assumes it, and `SchedulerRuns.RunKeepsGood`
discharges it for all reachable states. `Sound` does the same for the protocol.

## Where the code falls short of what one might expect

Each of these comes with a run or an input that shows it and with the condition under which the
property does hold.

* *Dependency order.* The runner marks a job as enqueued without looking at its state
  (`runner.py:205-213`). If a pending job is set to done by hand while the runner still holds it, the
  runner may dispatch it again after its children were released
  (`JobDependencies.StaleDispatchOvertakes`). In all states of a run every job past its wait has all
  its parents DONE if and only if no step takes a job out of DONE on which a live job depends, and no
  dispatch revives a job whose parents are not done (`JobDependencies.RunSafeExactlyWhen`).
* *Lost dependents.* When a worker sends its job back to wait, it decides on copies of the parents
  made when it acquired the job (`job.py:618-623`, `719-722`, `785-789`); a parent that finished in
  between is missed (`JobDependencies.StaleCopyLoses`). `JobDependencies.LostExactlyWhen` says which
  steps lose a dependent.
* *Retry bound.* A slow worker may get the lock of a job that was meanwhile requeued as dead and
  started again, and then stores its own, old retry count (`main.py:81-91`, `job.py:245-273`). In every
  run the starts are bounded by m + 2, plus conflicts, uncounted retries and what was set back that
  way (`JobRetries.StartsAreBounded`). The last summand is needed, and the bound is reached with it
  (`JobRetries.LateLockExceedsBound`) and without it (`JobRetries.FourStarts`); it is zero as long as
  locks are fresh (`JobRetries.FreshStartsAreBounded`).
* *Capacity.* `set_running` does not look at capacity, on purpose (`channels.py:496-507`).
  `SchedulerLimits.UnsolicitedOverfills` shows a channel above its capacity. No limited channel is
  overfull in any state of a run if and only if no row reports a job as running that does not run yet
  while a channel on its path is full (`SchedulerLimits.RunWithinExactlyWhen`); rows about jobs handed
  out never do (`SchedulerLimits.RunWithinCapacity`).
* *Heads and tails of chains, and empty groups.* `DelayableChain._head` asks its first element for its
  tails and `_tail` its last element for its heads (`delay.py:330-334`), which is wrong when that
  element is itself a chain: in `x.on_done(chain(chain(a, b), c))` job `a` does not wait for `x`
  (`DelayableOrder.NestedChainOvertakes`). An empty group breaks a chain: in `chain(a, group(), b)` job
  `b` does not wait for `a` (`DelayableOrder.EmptyGroupBreaksChain`). Nothing is ordered that should not
  be, whatever the expression (`DelayableMeaning.FlatOnlyMeant`), and
  `DelayableExactness.MeaningPreservedExactlyWhen` says when everything is that should be.
* *Full of milestones.* With as many milestones as the limit, a saved revision is pruned at once
  (`workflow_field_history_mixin.py:162-186`, `HistoryRuns.FullOfMilestones`);
  `HistoryRuns.SaveShowsExactlyWhen` gives the exact condition.

## Model

| member | source | states |
|---|---|---|
| `JobQueue.TrimKeepsLive` | queue_job/jobrunner/channels.py:59-72 | skipping removed entries at the top of the heap never changes the abstract contents |
| `JobQueue.AddRemoveAreSetOps` | queue_job/jobrunner/channels.py:74-91 | add and remove act on the abstract contents, known minus removed, as insert and delete; membership is membership |
| `JobQueue.LenIsSize` | queue_job/jobrunner/channels.py:56-57 | the length is the number of live jobs |
| `JobQueue.PopTakesMin` | queue_job/jobrunner/channels.py:93-104 | pop returns the live job smallest by key and takes exactly that one out, or reports an empty queue |
| `JobQueue.QueueRefinesSet` | queue_job/jobrunner/channels.py:51-104 | over any sequence of operations the lazy-deletion queue answers like a plain set ordered by key |
| `JobQueue.RankLessIsTupleOrder` | queue_job/jobrunner/channels.py:218-228 | jobs without eta compare as the tuples (priority, date_created, seq): the first place where they differ decides |
| `JobQueue.PriorityQueue.First` | queue_job/jobrunner/channels.py:59-72 | peeking returns the smallest live job and keeps the contents |
| `JobQueue.PriorityQueue.Add` | queue_job/jobrunner/channels.py:77-84 | in place: the contents gain the job, even if it had been removed before |
| `JobQueue.PriorityQueue.Remove` | queue_job/jobrunner/channels.py:86-91 | in place: the contents lose the job, and only it |
| `JobQueue.PriorityQueue.Pop` | queue_job/jobrunner/channels.py:93-104 | in place: the smallest live job leaves the contents |
| `ChannelDrain.ReleaseEffect` | queue_job/jobrunner/channels.py:335-340 | releasing moves exactly the deferred jobs whose eta has come to the due heap, and only those lose their eta |
| `ChannelDrain.PopEffect` | queue_job/jobrunner/channels.py:335-349 | what a pop of the two-heap queue returns, what stays queued, and that a sequential queue is held back by its earliest deferred job only |
| `ChannelDrain.DrainEffect` | queue_job/jobrunner/channels.py:544-575 | what is yielded leaves the queue and joins the running jobs, nothing else moves |
| `ChannelDrain.DrainYieldsSmallest` | queue_job/jobrunner/channels.py:335-349 | without sequential flag and throttle the yield is, in tuple order, the k smallest eligible jobs, k being the smaller of room and number eligible |
| `ChannelDrain.DrainWithinCapacity` | queue_job/jobrunner/channels.py:519-575 | a drain never takes a channel above its capacity and takes nothing into a full one |
| `ChannelDrain.DrainPause` | queue_job/jobrunner/channels.py:548-575 | a throttled channel yields at most one job and is then paused until `throttle` later |
| `ChannelDrain.DrainSettles` | queue_job/jobrunner/channels.py:528-575 | after a drain the channel is full, paused beyond now, or has nothing it could yield |
| `YieldExactly.ClosedYieldsNothing` | queue_job/jobrunner/channels.py:519-557 | a channel that is sequential and has a failed job, or is full, or is paused yields nothing and keeps all jobs where they are |
| `YieldExactly.YieldsExactlyWhen` | queue_job/jobrunner/channels.py:335-349 | a channel yields something if and only if it is not so closed and a foremost eligible job is not preceded, in a sequential channel, by the earliest deferred one |
| `YieldExactly.FailedBlocksPass` | queue_job/jobrunner/channels.py:519-526 | a sequential channel with a failed job takes in and hands out nothing in a whole pass, anywhere in the tree |
| `YieldExactly.PassYieldsExactlyWhen` | queue_job/jobrunner/channels.py:528-575 | the same if and only if for any channel in a pass, when its turn comes |
| `Traversal.PassIsSweep` | queue_job/jobrunner/channels.py:528-575 | the recursive pass equals pulling jobs up channel by channel in post-order and draining the root |
| `Traversal.RootOrder` | queue_job/jobrunner/channels.py:544-547 | that order visits every channel below the root, children before parents |
| `Frontier.PassKeeps` | queue_job/jobrunner/channels.py:528-575 | a complete pass keeps the frontier invariant of the whole tree |
| `Frontier.DoneKeeps` | queue_job/jobrunner/channels.py:466-480 | finishing a job keeps the invariant and removes the job from every channel |
| `Frontier.PendingKeeps` | queue_job/jobrunner/channels.py:482-494 | making a job pending keeps the invariant |
| `Frontier.RunningKeeps` | queue_job/jobrunner/channels.py:496-507 | marking a job as running, in its channel and all above, keeps the invariant |
| `Frontier.FailedKeeps` | queue_job/jobrunner/channels.py:509-517 | marking a job as failed keeps the invariant |
| `PassYield.QueueFromChildren` | queue_job/jobrunner/channels.py:544-547 | when its turn comes a channel has queued exactly what it had and what its children handed up |
| `PassYield.PassYieldsSmallest` | queue_job/jobrunner/channels.py:519-575 | in any channel of any tree in a reachable state, a pass yields the k smallest eligible jobs in order, its children's included |
| `SchedulerRuns.StepKeepsGood` | queue_job/jobrunner/channels.py:1026-1083 | every notification, removal, pass, new channel and collected object keeps the invariant |
| `SchedulerRuns.RunKeepsGood` | queue_job/jobrunner/channels.py:1026-1083 | so does every run of any length |
| `SchedulerRuns.FreshGood` | queue_job/jobrunner/channels.py:804-808 | and it holds of a new channel manager |
| `SchedulerRuns.FrontierShape` | queue_job/jobrunner/channels.py:466-517 | along its path to the root a job runs in a prefix of channels, is queued at most in the next and absent above and elsewhere; failed only in its own channel; one live object per uuid |
| `NotifyEffect.NotifyShows` | queue_job/jobrunner/channels.py:1026-1064 | after a row the job's object has the row's rank, eta and channel; it is the known one precisely if that had them already, else the known one is nowhere; it sits where the row's state says, and no other job moves |
| `NotifyEffect.RemoveJobSits` | queue_job/jobrunner/channels.py:1066-1070 | a removed job is nowhere and its entry is gone; no other job moves |
| `NotifyEffect.RemoveDbExactly` | queue_job/jobrunner/channels.py:1072-1076 | exactly the jobs of the database are gone; all others are where they were |
| `SchedulerRuns.SetNoEtaTouchesNoHeap` | queue_job/jobrunner/channels.py:199-201 | a job that loses its eta sits in no heap of any channel at that moment |
| `SchedulerRuns.DrainKeepsHeapKeys` | queue_job/jobrunner/channels.py:335-349 | so a drain changes no key of an object that stays in a heap |
| `HeapKeys.PassFades` | queue_job/jobrunner/channels.py:528-575 | a pass of any channel leaves ranks alone and at most takes away an eta |
| `HeapKeys.RunKeepsHeapKeys` | queue_job/jobrunner/channels.py:199-228 | through any run, an object that sits in a due heap, or in an eta heap before and after, has the key it had |
| `SchedulerLimits.PassRespectsCapacity` | queue_job/jobrunner/channels.py:519-575 | a pass takes no channel above its capacity and nothing through a full one |
| `SchedulerLimits.RunWithinCapacity` | queue_job/jobrunner/channels.py:496-575 | if only jobs handed out are reported as running, no limited channel is overfull in any state of the run |
| `SchedulerLimits.OverfullExactlyWhen` | queue_job/jobrunner/channels.py:496-507 | from a state within capacity, exactly the rows that report a job as running which does not, with a full channel on its path, lead to an overfull one |
| `SchedulerLimits.RunWithinExactlyWhen` | queue_job/jobrunner/channels.py:1026-1083 | a run is within capacity throughout if and only if none of its steps overfills a channel |
| `SchedulerLimits.UnsolicitedOverfills` | queue_job/jobrunner/channels.py:496-507 | without that, a channel can exceed its capacity |
| `SchedulerLimits.RunSpaced` | queue_job/jobrunner/channels.py:548-575 | over whole runs, yields of a throttled channel are at least `throttle` apart |
| `Sleep.PassSettles` | queue_job/jobrunner/channels.py:528-575 | after a complete pass every channel of the tree is full, paused or stuck |
| `Sleep.WakeupFuture` | queue_job/jobrunner/channels.py:577-595 | the wakeup time is 0 or lies in the future |
| `Sleep.WakeupQuiet` | queue_job/jobrunner/channels.py:351-357 | until the wakeup time no channel has anything to yield to the root |
| `Sleep.WakeupIsAwaited` | queue_job/jobrunner/channels.py:577-595 | a wakeup time is the end of the pause of a channel with capacity or the eta of a job deferred in one |
| `Sleep.HousekeptQuiet` | queue_job/jobrunner/channels.py:351-357 | computing the wakeup time trims heaps but disturbs nothing |
| `Sleep.SleepIsSafe` | queue_job/jobrunner/channels.py:528-595 | after a pass the wakeup time is 0 or later than now, and every later look before it, however many, yields nothing |
| `ChannelManagement.ChannelManager.ReleaseDue` | queue_job/jobrunner/channels.py:335-340 | the loop that releases deferred jobs computes `Release` |
| `ChannelManagement.ChannelManager.PopFrom` | queue_job/jobrunner/channels.py:335-349 | pops in place what `PopJob` says |
| `ChannelManagement.ChannelManager.DrainQueue` | queue_job/jobrunner/channels.py:557-575 | the while loop of the pass computes `DrainLoop` |
| `ChannelManagement.ChannelManager.YieldJobs` | queue_job/jobrunner/channels.py:548-575 | throttle, pause and log around it |
| `ChannelManagement.ChannelManager.GetJobsToRun` | queue_job/jobrunner/channels.py:528-575 | the recursive pass over the tree, in place, computes `Pass` |
| `ChannelManagement.ChannelManager.GetWakeupTime` | queue_job/jobrunner/channels.py:577-595 | the recursive wakeup time computes `Wakeup` and only trims heaps |
| `ChannelManagement.ChannelManager.Remove` | queue_job/jobrunner/channels.py:466-472 | removes a job in place along the path to the root |
| `ChannelManagement.ChannelManager.MarkPending` | queue_job/jobrunner/channels.py:482-494 | in place `SetPending` |
| `ChannelManagement.ChannelManager.MarkRunning` | queue_job/jobrunner/channels.py:496-507 | in place `SetRunning` |
| `ChannelManagement.ChannelManager.MarkFailed` | queue_job/jobrunner/channels.py:509-517 | in place `SetFailed` |
| `ChannelManagement.ChannelManager.Notify` | queue_job/jobrunner/channels.py:1026-1064 | one database row applied in place is one step of the specification and keeps the invariant |
| `ChannelManagement.ChannelManager.CreateChannel` | queue_job/jobrunner/channels.py:407-420 | a new channel is appended below an existing one, with an empty queue, and keeps the invariant |
| `ChannelManagement.ChannelManager.RemoveJob` | queue_job/jobrunner/channels.py:1066-1070 | the same for the removal of a job |
| `ChannelManagement.ChannelManager.RemoveDb` | queue_job/jobrunner/channels.py:1072-1076 | the same for all jobs of a database |
| `ChannelManagement.ChannelManager.RunPass` | queue_job/jobrunner/channels.py:1078-1079 | the pass from the root, in place; keeps the invariant |
| `ChannelManagement.ChannelManager.WakeupTime` | queue_job/jobrunner/channels.py:1081-1082 | the wakeup time of the root |
| `JobProtocol.BusyOnlyBy` | queue_job/jobrunner/runner.py:205-213 | only a dispatch makes a job ENQUEUED or STARTED that was neither |
| `JobProtocol.PendingFrom` | queue_job/jobrunner/runner.py:414-449 | where the jobs come from that the runner holds as pending |
| `JobProtocol.NextViewOk` | queue_job/jobrunner/runner.py:396-449 | what the runner holds as pending stays neither ENQUEUED nor STARTED in the table |
| `JobProtocol.StaysStarted` | queue_job/jobrunner/runner.py:215-278 | neither the runner, nor the requeuer, nor a button touches the row of a job being performed |
| `JobProtocol.RunSound` | queue_job/controllers/main.py:57-110 | view and lock invariants hold in every interleaving |
| `JobProtocol.AtMostOnePerforms` | queue_job/job.py:225-273 | at most one worker performs a job, and meanwhile its stored state is STARTED |
| `JobOutcomes.CreatedAre` | queue_job/job.py:468-477 | new jobs are PENDING exactly if they depend on none |
| `JobOutcomes.AcquireCopies` | queue_job/controllers/main.py:57-91 | taking a job starts it, makes its lock row and copies its retry count and whether all parents are DONE |
| `JobOutcomes.LockIsExclusive` | queue_job/job.py:245-273 | a worker goes on exactly if its job is still STARTED and nobody has its lock row |
| `JobOutcomes.OutcomeIsStored` | queue_job/controllers/main.py:149-192 | success is DONE; a plain error FAILED at once; a retryable one FAILED exactly when the retries are used up; conflicts and uncounted retries never; otherwise PENDING or waiting by the parents; with the stored retry count |
| `JobOutcomes.OutcomeIsFinal` | queue_job/controllers/main.py:95-110 | over whole runs: DONE after success and FAILED after a plain error last until somebody touches the job by hand |
| `JobOutcomes.DeadIsRequeued` | queue_job/jobrunner/runner.py:215-278 | a dead job is PENDING again or FAILED, exactly by its retries, and counted as retried only if it was STARTED |
| `JobOutcomes.RequeueStartsAnew` | queue_job/models/queue_job.py:345-350 | a requeue resets the retry count and waits exactly if some parent is not DONE |
| `JobOutcomes.DoneSpreads` | queue_job/models/queue_job.py:305-327 | setting a job to done releases exactly the children that waited for it alone |
| `JobOutcomes.CancelSpreads` | queue_job/models/queue_job.py:305-327 | cancelling a job cancels exactly the waiting children whose other parents are all cancelled |
| `JobOutcomes.ByHandWhen` | queue_job/models/queue_job.py:329-350 | from which states the buttons and the requeue act |
| `JobOutcomes.DependentsAreReleased` | queue_job/job.py:521-557 | a finishing worker releases exactly the waiting children whose parents are all DONE |
| `JobOutcomes.RestartForgets` | queue_job/jobrunner/runner.py:386-407 | a runner that starts again holds nothing as pending and touches no row |
| `JobDependencies.RunDepSafe` | queue_job/job.py:785-830 | if no job leaves DONE, every job past its wait has all parents DONE, through retries, requeues of dead jobs, cancellations and buttons |
| `JobDependencies.UnsafeExactlyWhen` | queue_job/models/queue_job.py:305-350 | from a state in which every job past its wait has all parents DONE, exactly the steps that overtake lead to one in which that fails |
| `JobDependencies.RunSafeExactlyWhen` | queue_job/job.py:468-477 | every job past its wait has all parents DONE in all states of a run if and only if none of its steps overtakes |
| `JobDependencies.StaleDispatchOvertakes` | queue_job/jobrunner/runner.py:205-213 | a run without any requeue in which a child gets ahead of its parent |
| `JobDependencies.LostExactlyWhen` | queue_job/job.py:521-557 | exactly which steps leave a dependent waiting for parents that are all done with nobody left to release it |
| `JobDependencies.NoDependentIsLost` | queue_job/controllers/main.py:95-146 | however many parents finish at once, once no worker has dependents left to look at, no job waits whose parents are all done |
| `JobDependencies.StaleCopyLoses` | queue_job/job.py:785-789 | a run in which a dependent is lost because the worker's copies of its parents are old |
| `JobRetries.CopiesExactlyWhen` | queue_job/controllers/main.py:81-91 | a performing worker's retry count is that of the row exactly as long as locks are fresh |
| `JobOutcomes.TallyIsExact` | queue_job/job.py:806-810 | what the bound counts: starts, conflicts, uncounted retries and what outcomes set back, between requeues |
| `JobRetries.StartsAreBounded` | queue_job/job.py:479-509 | in every run, between requeues a job with m retries is started at most m + 2 times, plus conflicts, uncounted retries and what old copies set the retry count back by |
| `JobRetries.FreshStartsAreBounded` | queue_job/controllers/main.py:149-190 | with fresh locks nothing is set back and the bound is m + 2 plus conflicts and uncounted retries |
| `JobRetries.FourStarts` | queue_job/jobrunner/runner.py:215-278 | a run without late locks that reaches the bound: four starts with m = 2 |
| `JobRetries.LateLockExceedsBound` | queue_job/job.py:245-273 | a run with m = 2 and seven starts: a late lock sets the count back by three, and the bound with that added is reached |
| `RunnerView.NotifyHeld` | queue_job/jobrunner/runner.py:431-449 | a notification changes the uuids queued in the channel tree as the protocol's runner view allows |
| `RunnerView.PassHeld` | queue_job/jobrunner/runner.py:414-429 | a pass takes out of them exactly the jobs it yields, each of which was queued |
| `JobGraph.WithEdge` | queue_job/delay.py:76-82 | adding an edge adds exactly that edge and its two vertices |
| `JobGraph.Graph.AddEdge` | queue_job/delay.py:76-82 | in place `WithEdge` |
| `JobGraph.Graph.ListEdges` | queue_job/delay.py:88-94 | lists every edge once |
| `JobGraph.Graph.RootVertices` | queue_job/delay.py:147-155 | the vertices that depend on no other |
| `JobGraph.OrderedNotFromCycle` | queue_job/delay.py:125-145 | what an order can list lies on no cycle and after none |
| `JobGraph.LeftFromCycle` | queue_job/delay.py:125-145 | if everything left over waits for something left over, all of it comes from a cycle |
| `JobGraph.Graph.TopologicalSort` | queue_job/delay.py:125-145 | lists once each, after all they depend on, precisely the vertices that come from no cycle |
| `JobGraph.AcyclicMeansNoFromCycle` | queue_job/delay.py:125-131 | hence every vertex exactly when the graph is acyclic |
| `GraphPaths.PathSearch.Search` | queue_job/delay.py:98-123 | backtracking on one shared path lists every maximal cycle-free path once and restores the path |
| `Delayables.MergeGraph` | queue_job/delay.py:172-186 | merging adds exactly the edges from tails to heads of each edge between objects |
| `Delayables.ConnectGraphs` | queue_job/delay.py:188-212 | the flat graph is made of the graphs of exactly the objects that can be come by from the root |
| `DelayableWorkspace.Workspace.NewDelayable` | queue_job/delay.py:451-477 | a new delayable's own graph is the delayable |
| `DelayableWorkspace.Workspace.NewChain` | queue_job/delay.py:319-328 | a new chain's graph joins each element with the next; an empty chain is an error |
| `DelayableWorkspace.Workspace.NewGroup` | queue_job/delay.py:376-380 | a new group's graph has its members and no edges |
| `DelayableWorkspace.Workspace.OnDone` | queue_job/delay.py:340-348 | attaching objects adds the edges that belong to the kind of object, and to no other object |
| `DelayableMeaning.FlatVertices` | queue_job/delay.py:172-212 | vertices of the flat graph are exactly the visited delayables, and every edge target is one |
| `DelayableMeaning.FlatOnlyMeant` | queue_job/delay.py:172-212 | no order is introduced that the expression does not ask for, for every expression |
| `DelayableMeaning.FlatteningPreservesMeaning` | queue_job/delay.py:172-212 | for faithful expressions, empty groups included, a job precedes another in the flat graph if and only if the expression puts it there; the vertices are exactly its jobs |
| `DelayableMeaning.PlainEndsAreFaithful` | queue_job/delay.py:319-348 | expressions without empty groups whose chains begin and end with delayables or groups of delayables are faithful |
| `DelayableTree.TreeIsAcyclic` | queue_job/delay.py:319-401 | an expression that mentions each object once never asks for a cycle |
| `DelayableExactness.Missing` | queue_job/delay.py:330-334 | where the computed heads or tails are wrong, a job at that side is missing from them |
| `DelayableExactness.UnfaithfulLoses` | queue_job/delay.py:382-386 | an object with an edge between wrong tails or heads, or with a gap in its chain, leaves two jobs unordered that the expression orders |
| `DelayableExactness.UnvisitedLoses` | queue_job/delay.py:392-401 | a job that hangs on something attached to an empty group is missing from the flat graph |
| `DelayableExactness.MeaningPreservedExactlyWhen` | queue_job/delay.py:319-401 | for expressions that mention each object once, flattening keeps the jobs and their order if and only if the expression is faithful |
| `DelayableOrder.NestedChainOvertakes` | queue_job/delay.py:330-334 | the expression `x.on_done(chain(chain(a, b), c))` loses the order between x and a |
| `DelayableOrder.EmptyGroupBreaksChain` | queue_job/delay.py:376-386 | the expression `chain(a, group(), b)` loses the order between a and b |
| `DelayableOrder.ExecuteDirect` | queue_job/delay.py:293-295 | running a faithful acyclic expression directly runs each of its jobs once, after all that it puts before it |
| `WorkflowMachine.RouteKeeps` | workflow_studio/models/workflow_executor.py:1745-1805 | routing pushes exactly as many entries as it records connection events and changes nothing else |
| `WorkflowData.RoutePasses` | workflow_studio/models/workflow_executor.py:1745-1805 | exactly the connections with a target and items on their socket fire, in order, each with one event and one entry holding the single item or the list of all items |
| `WorkflowData.StepIsTurn` | workflow_studio/models/workflow_executor.py:518-556 | one turn exactly: disabled nodes dropped, unknown or failing ones recorded with their error, others with their own result, their data handed on |
| `WorkflowData.RunFed` | workflow_studio/models/workflow_executor.py:498-556 | in every run every execution has as input the launch data, at a start node, or exactly what an earlier execution put out on the socket of a connection to it |
| `WorkflowRuns.StepAccounted` | workflow_studio/models/workflow_executor.py:518-556 | every turn keeps conservation, numbering and provenance |
| `WorkflowRuns.RunAccounted` | workflow_studio/models/workflow_executor.py:498-556 | in every state of every run: turns plus stack equal start nodes plus events; event i has number i and follows a connection; every executed or stacked node is a start node or was led to by an executed one |
| `WorkflowRuns.OnlyReachableRuns` | workflow_studio/models/workflow_executor.py:337-341 | every executed node is enabled and reached from a start node through enabled nodes only |
| `WorkflowTermination.AcyclicRunEnds` | workflow_studio/models/workflow_executor.py:513-556 | without cycles a run is over within the sum of T over its start nodes, T(n) being one plus the T of all its targets, cap or no cap |
| `WorkflowPreview.AcyclicNeverTooMany` | workflow_studio/models/workflow_executor.py:558-561 | a sum below 1000 rules out the error about too many iterations |
| `WorkflowPreview.CompletesExactlyWhen` | workflow_studio/models/workflow_executor.py:513-561 | a run completes exactly when the stack runs empty, without failure, in fewer than 1000 turns |
| `WorkflowPreview.FailsExactlyWhen` | workflow_studio/models/workflow_executor.py:526-541 | a run fails exactly when one of its first 1000 turns does |
| `WorkflowPreview.PreviewIsPrefix` | workflow_studio/models/workflow_executor.py:652-692 | whatever its own limit, a preview that returns ends with the first execution of the target, from which nothing is handed on, or the first failure, agrees with the full machine at that moment, and is the beginning of the full run as long as it took no more turns |
| `WorkflowPreview.PreviewCompletesExactlyWhen` | workflow_studio/models/workflow_executor.py:652-733 | it completes exactly when the full run executes the target without failing before the preview's last turn |
| `WorkflowPreview.PreviewFailsExactlyWhen` | workflow_studio/models/workflow_executor.py:652-713 | it reports a failing node exactly when the full run fails before the preview's last turn and has not run the target |
| `LoopNode.LoopRunner.Execute` | workflow_studio/models/runners/loop_runner.py:35-95 | one run of a loop node updates its state as `RunLoop` says; a failure changes nothing |
| `LoopNode.LoopRunner.Continue` | workflow_studio/models/runners/loop_runner.py:97-135 | going on remembers the batch, advances, and emits the next batch or the list of all |
| `LoopNode.LoopGives` | workflow_studio/models/runners/loop_runner.py:48-149 | each run of a loop node: the items found, the configured batch size, the state kept, and the batch or list on the right socket |
| `LoopNode.BatchesCover` | workflow_studio/models/runners/loop_runner.py:137-149 | the batches put together are the items, none lost, none twice, none moved |
| `LoopNode.BatchesCount` | workflow_studio/models/runners/loop_runner.py:137-149 | there are n divided by b of them, rounded up |
| `LoopNode.BatchesCut` | workflow_studio/models/runners/loop_runner.py:137-149 | all batches but the last have the batch size |
| `WorkflowLoops.BodyPass` | workflow_studio/models/workflow_executor.py:518-556 | one trip through a linear body leads back to the loop, with its state and the lower stack untouched |
| `WorkflowLoops.LoopActivation` | workflow_studio/models/runners/loop_runner.py:48-149 | one activation runs the body once per batch of the configured size, in order and on that batch (the item if it is one, the list if several), before any lower entry, then emits the list of batches once; and takes one turn plus, per batch, one for each body node and one for the loop |
| `WorkflowLoops.EmptyActivation` | workflow_studio/models/runners/loop_runner.py:86-92 | a loop that finds nothing or an empty list takes one turn and pushes nothing |
| `WorkflowExecution.Executor.BuildGraph` | workflow_studio/models/workflow_executor.py:309-335 | the indexes hold, per source, its connections in order, per target its sources, and the set of targets |
| `WorkflowExecution.LeavingLast` | workflow_studio/models/workflow_executor.py:324-329 | the connections of a node are taken in the order in which they are listed |
| `WorkflowExecution.Executor.RouteOutputs` | workflow_studio/models/workflow_executor.py:1745-1805 | the loop over the connections computes `Route` |
| `WorkflowExecution.Executor.ExecuteTop` | workflow_studio/models/workflow_executor.py:518-546 | takes the top entry, skips a disabled node, otherwise stores its result or its failure |
| `WorkflowExecution.Executor.Execute` | workflow_studio/models/workflow_executor.py:465-564 | the loop leaves the state `Final` and ends with the right verdict; a completed run has an empty stack |
| `WorkflowExecution.Executor.ExecuteUntil` | workflow_studio/models/workflow_executor.py:613-733 | the same for the preview |
| `WorkflowExecution.Executor.FindStartNodes` | workflow_studio/models/workflow_executor.py:736-768 | exactly the enabled nodes without incoming connections, in the order of the nodes |
| `WorkflowExecution.StartNodesAre` | workflow_studio/models/workflow_executor.py:736-768 | start nodes are the enabled nodes that are the target of no connection |
| `WorkflowExecution.Executor.FindStartNodesFor` | workflow_studio/models/workflow_executor.py:770-791 | the start nodes that lead to the target, in order, or, if none does, all of them |
| `WorkflowExecution.Executor.NodeAncestors` | workflow_studio/models/workflow_executor.py:793-810 | the backward search finds exactly the nodes from which the target can be reached |
| `SnapshotHistory.PruneIsKept` | workflow_studio/models/workflow_field_history_mixin.py:162-186 | splitting, cutting and sorting amounts to one walk that keeps milestones and the newest others; ids stay descending |
| `SnapshotHistory.PruneDropsOldest` | workflow_studio/models/workflow_field_history_mixin.py:162-186 | only the oldest non-milestones are dropped, and only when the limit is reached |
| `HistoryRuns.HistoryIsFaithful` | workflow_studio/models/workflow_field_history_mixin.py:188-215 | after any operations ids are strictly descending and every retained revision gives back what was saved under it, unless that was empty |
| `HistoryRuns.MilestonesAreKept` | workflow_studio/models/workflow_field_history_mixin.py:241-295 | no revision is dropped while it is a milestone |
| `HistoryRuns.MarkExactly` | workflow_studio/models/workflow_field_history_mixin.py:241-295 | marking or unmarking changes exactly the revision with that id, and only in that respect |
| `HistoryRuns.MarkedIsKept` | workflow_studio/models/workflow_field_history_mixin.py:241-269 | over whole runs a revision that is there when it is marked is there at the end, unless it was unmarked in between |
| `HistoryRuns.SavePutsFirst` | workflow_studio/models/workflow_field_history_mixin.py:78-125 | something new, saved while there is room, is in front with the next id, no milestone, and the digests of its content |
| `HistoryRuns.SaveShowsExactlyWhen` | workflow_studio/models/workflow_field_history_mixin.py:78-160 | exactly when the newest revision is the current content after a save |
| `HistoryRuns.FullOfMilestones` | workflow_studio/models/workflow_field_history_mixin.py:162-186 | operations from an empty history after which a save is current but not the newest revision |
| `HistoryRuns.NewestIsCurrent` | workflow_studio/models/workflow_field_history_mixin.py:297-326 | over whole runs, with fewer milestones than the limit, a save or restore ends with the current content as the newest revision |
| `HistoryRuns.MilestoneShows` | workflow_studio/models/workflow_field_history_mixin.py:328-362 | a new milestone always is the newest revision and has the current content |
| `VersionedRecord.VersionedField.CreateSnapshotRevision` | workflow_studio/models/workflow_field_history_mixin.py:78-125 | adds or marks in place, and reports the id of the revision concerned |
| `VersionedRecord.VersionedField.Write` | workflow_studio/models/workflow_field_history_mixin.py:127-160 | writing the field is a save |
| `VersionedRecord.VersionedField.MakeMilestone` | workflow_studio/models/workflow_field_history_mixin.py:328-362 | makes a milestone of the current content |
| `VersionedRecord.VersionedField.MarkMilestone` | workflow_studio/models/workflow_field_history_mixin.py:241-269 | marks the revision, or reports that there is none |
| `VersionedRecord.VersionedField.UnmarkMilestone` | workflow_studio/models/workflow_field_history_mixin.py:271-295 | unmarks the revision and keeps it |
| `VersionedRecord.VersionedField.GetContentAtRevision` | workflow_studio/models/workflow_field_history_mixin.py:188-215 | the snapshot a revision refers to; none for an unknown revision or an empty snapshot |
| `VersionedRecord.VersionedField.RestoreRevision` | workflow_studio/models/workflow_field_history_mixin.py:297-326 | restoring saves the old content anew, or reports that there is none |

## Left out

- Heaps: `heapq` is modelled as taking the smallest element by key; equal keys are ordered by an
  arbitrary fixed order of the objects, as the program leaves it open.
- Channel names and configuration strings: channels are numbered in order of creation;
  `parse_simple_config` and the fallback naming of `get_channel_by_name` are not modelled.
- The generator `get_jobs_to_run` is taken as fully consumed; etas are positive, since `if job.eta`
  treats 0 as absent, and a throttle is not negative.
- HTTP, LISTEN/NOTIFY, advisory locks and process handling: only their effect, as atomic steps of a
  single runner. The ten-second delay before a job counts as dead is dropped, so the requeuer may
  act sooner in the model than in the program.
- The protocol is a state machine over values, not a set of classes, since its steps are committed
  transactions of several processes; deletion of job rows, the seconds a retry is postponed and the
  number of tries of `_enqueue_dependent_jobs` are not modelled.
- DelayableExactness.MeaningPreservedExactlyWhen: necessity is stated for expressions that mention each
  object once and their root nowhere; where an object is used twice, another edge may make up for a
  missing one.
- Identity keys, graph uuids and storing of the jobs of a flattened graph.
- Runners other than the loop are one deterministic function of node, input and state; expressions,
  sockets' names and pinned data are part of it or resolved beforehand. A batch size is not negative.
- A loop keeps its state after it has completed, so the loop theorem is about one activation.
- Savepoints, bus notifications, masking and persistence of node runs.
- Digests are assumed to be injective; notes, dates and users of revisions, and the migration of
  legacy patch revisions, are not modelled.
- Odoo's object-relational layer, access rights, views, dashboards and the web client.
