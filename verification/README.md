# Activation lifecycle: a verified model

Event-Driven Ansible keeps a durable queue of requests for every activation. API
views, project syncs and the manager push to it; dispatchers wake workers; the one
worker that gets the activation's advisory lock arbitrates what is queued, runs it
and pops it. Project syncs feed the queue through the `awaiting_project_sync` flag.
This project models that protocol and the code around it, and proves what it
guarantees in every run, and exactly where it guarantees less than it seems to.

`dafny verify dfyconfig.toml` checks everything.

## How it is built

| file | what it models |
|---|---|
| `Arbitration.dfy`, `RequestQueue.dfy` | the pairwise rule and its fold; the request table with push, peek and pop, deletions committed one by one |
| `DrainLoop.dfy`, `LoopSteps.dfy` | the worker's loop as written, on that table, proved to be a run of the protocol below |
| `DrainProtocol.dfy` | the same protocol as a transition system: any number of dispatchers and workers, pushes at any time, crashes between any two steps |
| `DrainSafety.dfy`, `BoundedBypass.dfy`, `BypassExactly.dfy`, `DeletionFinality.dfy`, `FinalityExactly.dfy` | theorems about all its runs |
| `Dispatch.dfy` | routing to worker queues |
| `ActivationWorld.dfy`, `ProjectImport.dfy`, `ProjectSync.dfy`, `ProjectMonitor.dfy` | the tables, and what an import, a sync and a monitor pass make of them, as functions with their theorems |
| `ProjectTasks.dfy`, `ActivationViews.dfy`, `ViewOutcomes.dfy` | the tasks and the views as written, proved to compute those functions, and what each view comes to |
| `SyncRuns.dfy`, `SyncDrain.dfy`, `ViewRuns.dfy` | many syncs, and the drain that follows; users and tasks acting in any order |
| `Interleaving.dfy`, `SyncSteps.dfy` | tasks, imports and users side by side, save and push being separate steps; a task let alone is the function above |
| `DisableRace.dfy`, `RequestBounds.dfy`, `WaitRace.dfy` | what an activation can get in every such interleaving: a disabled one, any, one that waits |
| `ImportStates.dfy`, `ProjectViews.dfy`, `TaskTransactions.dfy` | transactions on a project's import state; the views that claim a sync, and the tasks that end it |
| `ExtraVars.dfy`, `SourceMappings.dfy` | extra variables with credentials, and source mappings |
| `AuditStore.dfy`, `PgNotify.dfy` | audit tables, and chunked notifications |

Code that changes fields step by step is a class with methods and loops. A method on
the tables is proved equal to a function, and the theorems are about the function. The
worker's loop carries the protocol along: every statement that touches the queue is
matched by protocol steps, so what is proved of all runs of the protocol holds for it.

## What is assumed

- A push, with its check of the parent, is one step, and row ids become visible in increasing order.
- What the code cannot see is a parameter or a free choice of the model: health
  answers, whether a push or a submission succeeds, what the activation manager does,
  which files a commit holds and whether an import raises, the order of rows, when
  actors crash.
- `status` is one of the declared values; time is an integer.
- An activation belongs to the project of its rulebook, as creation and editing make it
  (`src/aap_eda/api/serializers/activation.py:696-705`), and ids of rulebooks are not used again.
- Templates keep their keys, and a rendered value is given with its credential.

## Where the code and its evident intent differ

- **A deletion is not one transaction.** Deleting an activation first deletes its
  queued requests and then the row (`src/aap_eda/core/models/mixins.py:105-117`). A
  request pushed in between is accepted and run afterwards, although the activation
  is gone. `DeletionIsFinal` says that nothing else can follow, `NothingAfterDeletionIff`
  when nothing does, and `FinalIff` that no moment of the commit can promise it but one:
  when another deletion has already emptied the queue.
- **A Stop can be taken away by a deletion.** One that is pushed while a fetched Delete is
  still to be worked off goes with the queue, and a Restart pushed next is served.
  `BoundedBypassIff`: that is the only case.
- **Orphans of a completed project.** The first resumes all; every later one is then put
  in ERROR from its stale object (`src/aap_eda/tasks/project.py:640-660`), though its
  request is queued. `MonitorOrphan` gives the exact status, `SecondOrphanInError` such tables.
- **Disabling does not reach a task that has already read the activation.**
  `DisableSticksIff` names the tasks that will still push for it, `MostRequestsIff` counts them.
- **Two tasks can resume the same activation.** Between the commit of a sync and its
  resumptions the monitor finds waiting activations of a completed project, and resumes
  them too: two requests (`TwoReadersPushTwice`). When tasks read it one after the other
  it is resolved once (`WaitingEndsOnce`).
- **A failed sync of a completed project leaves it completed.** The import service's own
  FAILED is rolled back with its transaction, and recovery touches only PENDING and
  RUNNING (`SyncEndsWaiting`). For the same reason no transaction ever reads RUNNING (`CompletedIsKept`).
- **The chunk count** is one too high when the chunk size divides the length (`AdvertisedCount`).
- **Stripping extra variables** takes away the keys of vault and system credentials too,
  which validation does not look at (`RoundTrip`, `RoundTripLosesOne`).
- **Refreshing extra variables** before a restart keeps only the last
  credential's new values, and nothing new when that one's injector is empty (`RefreshIsInjectIff`,
  `RefreshMissesOne`, `RefreshPutsBack`).
- **Default source names** can clash with names given in a rulebook (`NamesDistinctIff`, `ClashExample`).

## Model

| member | source | states |
|---|---|---|
| Arbitration.ArbitrateClosedForm | src/aap_eda/tasks/activation_request_queue.py:75-130 | for every queue the survivors are: the first Delete alone; else the earliest Stop with no start between it and the last Stop, then the first start after it; else the first start; else the first AutoStart; never more than two |
| Arbitration.ArbitrateIncremental | src/aap_eda/tasks/activation_request_queue.py:54-58 | arbitrating leftovers together with later rows gives the very rows that one arbitration of everything gives |
| Arbitration.ArbitrateIdempotent | src/aap_eda/tasks/activation_request_queue.py:75-96 | arbitrated requests are left as they are |
| Arbitration.ArbitrateCongruence | src/aap_eda/tasks/activation_request_queue.py:75-130 | on kinds of requests both halves of a queue may be arbitrated beforehand |
| Arbitration.CongruenceIsOnlyOnKinds | src/aap_eda/tasks/activation_request_queue.py:99-130 | a queue for which that is false of the rows themselves |
| Arbitration.DeleteTakesAll | src/aap_eda/tasks/activation_request_queue.py:104-110 | a Delete anywhere leaves one request, a Delete no later than it |
| Arbitration.BarrierComesFirst | src/aap_eda/tasks/activation_request_queue.py:116-123 | with a Stop or Delete anywhere, what is served first is a Stop or a Delete |
| RequestQueue.RequestTable.Push | src/aap_eda/tasks/activation_request_queue.py:25-51 | the row is added under a new id, or nothing is when the parent type is unknown or the parent gone |
| RequestQueue.RequestTable.PeekAll | src/aap_eda/tasks/activation_request_queue.py:54-58 | returns the arbitration of the activation's rows and leaves just those; other activations keep theirs; every table committed on the way arbitrates to the same result |
| RequestQueue.RequestTable.ArbitrateRequests | src/aap_eda/tasks/activation_request_queue.py:75-96 | the loop with its deletions computes the fold |
| RequestQueue.RequestTable.ResolveRequestPair | src/aap_eda/tasks/activation_request_queue.py:99-130 | the five branches move reference, list and table as the rule says, each deletion a commit of its own |
| RequestQueue.RequestTable.PopUntil | src/aap_eda/tasks/activation_request_queue.py:61-66 | removes just the activation's rows up to the given id |
| RequestQueue.RequestTable.DeleteRequestsOf | src/aap_eda/core/models/mixins.py:108-113 | removes all requests of the activation and no other |
| DrainLoop.Worker.RunRequest | src/aap_eda/tasks/orchestrator.py:156-188 | the request counts as processed however the manager ends; only a deletion touches the queue, and may fail before its purge or between purge and removal, others pushing in between; matched by protocol steps |
| DrainLoop.Worker.CallManager | src/aap_eda/tasks/orchestrator.py:170-181 | each kind of request is run by its own operation, an automatic start as a start that counts as a restart |
| DrainLoop.Worker.RunBatch | src/aap_eda/tasks/orchestrator.py:114-123 | runs what was fetched, once each and in order; afterwards only later pushes are queued |
| DrainLoop.Worker.ManageNoLock | src/aap_eda/tasks/orchestrator.py:95-153 | the whole loop, whoever pushes and however deletions fail, is a run of the protocol that ends with the lock released; it leaves an empty queue, ids of what ran strictly increasing, each run by its own operation of the manager; without pushes by others exactly the arbitrated queue has run; it monitors exactly if nothing ran, the activation is starting, running or offline and its process has no queue or the local one |
| DrainLoop.Worker.Fetch | src/aap_eda/tasks/activation_request_queue.py:54-58 | a peek with its deletions is the protocol's fetch from the top of the loop to the requests it serves |
| LoopSteps.FetchRuns | src/aap_eda/tasks/activation_request_queue.py:75-96 | from the top of the loop a worker alone comes to serve exactly the arbitration of the queue, with that queue left |
| DrainProtocol.StepInv | src/aap_eda/tasks/orchestrator.py:77-128 | every step of every actor keeps the protocol's invariant: one lock holder, the fetched rows at the head of the queue, starts in order, each request accounted for |
| DrainProtocol.ExecInv | src/aap_eda/tasks/orchestrator.py:77-128 | so does every run |
| DrainProtocol.PopExact | src/aap_eda/tasks/activation_request_queue.py:61-66 | popping removes the served request from the head of the queue and no other row |
| DrainSafety.MutualExclusion | src/aap_eda/tasks/orchestrator.py:77-92 | in every run at most one worker drains an activation's queue, and nobody probes its lock meanwhile |
| DrainSafety.DispatchLeavesNoTrace | src/aap_eda/tasks/orchestrator.py:211-233 | a dispatch goes on only for an existing activation whose lock is free, lets go of the lock at once, and leaves at most one waiting job |
| DrainSafety.ExactlyOneFate | src/aap_eda/tasks/orchestrator.py:114-123 | without crashes each committed request is in exactly one of: queued, started, superseded, gone with the activation; starts go strictly up in id |
| DrainSafety.CrashFreeRun | src/aap_eda/tasks/orchestrator.py:77-128 | only a crash interrupts a request in flight |
| DrainSafety.CrashesLoseNothing | src/aap_eda/tasks/orchestrator.py:114-123 | with crashes anywhere no request is lost, starts never go back in id, and a request starts at most once more than it was cut short |
| DrainSafety.OnlyInterruptedRunsAgain | src/aap_eda/tasks/orchestrator.py:114-123 | what is started a second time is the last started request, cut short by a crash |
| DrainSafety.PopTakesOnlyTheServed | src/aap_eda/tasks/activation_request_queue.py:61-66 | in every state a pop removes a started request or nothing |
| DrainSafety.PlanStands | src/aap_eda/tasks/activation_request_queue.py:75-130 | no step of anybody changes what a fetch under way will serve |
| DrainSafety.InterruptedArbitration | src/aap_eda/tasks/activation_request_queue.py:75-130 | wherever the deletions stop, arbitrating the leftovers gives what the interrupted fetch would have, also with rows pushed behind them |
| BoundedBypass.BoundedBypass | src/aap_eda/tasks/orchestrator.py:114-123 | after a Stop or Delete commits, at most two already fetched requests start before a Stop or Delete of a later fetch, unless a deletion takes it away |
| BypassExactly.BoundedBypassIff | src/aap_eda/tasks/orchestrator.py:114-123 | without that exception, for all runs, exactly when at the commit no worker has a fetched Delete still to work off |
| BypassExactly.BypassFails | src/aap_eda/core/models/mixins.py:105-117 | otherwise a run in which a Restart is served instead |
| DeletionFinality.DeletionIsFinal | src/aap_eda/core/models/mixins.py:105-117 | after a Delete commits, only requests no younger than it start, or ones pushed while a deletion had emptied the queue; unless a deletion failed |
| DeletionFinality.NothingAfterDeletionIff | src/aap_eda/core/models/mixins.py:105-117 | after the activation is removed nothing ever starts, exactly when the queue was empty at the removal |
| DeletionFinality.WindowPushRuns | src/aap_eda/core/models/mixins.py:105-117 | a Restart pushed between the two halves of a deletion is started |
| FinalityExactly.FinalIff | src/aap_eda/core/models/mixins.py:105-117 | for all runs in which no deletion fails: nothing younger than the Delete ever starts, exactly when at its commit another deletion had emptied the queue and not yet removed the activation |
| FinalityExactly.YoungerIsStarted | src/aap_eda/core/models/mixins.py:105-117 | from every other state a run, without a failing deletion, whose last start is a younger Restart |
| Dispatch.Dispatcher.GetLeastBusyQueueName | src/aap_eda/tasks/orchestrator.py:440-464 | a configured queue that answered, with no more running and starting processes than any other that answered; an error exactly when none did |
| Dispatch.Dispatcher.HandleUnhealthyQueue | src/aap_eda/tasks/orchestrator.py:363-437 | only a restart is sent elsewhere; otherwise a pending activation stays so, and any other goes offline together with its latest process |
| Dispatch.Dispatcher.ResolveExistingQueue | src/aap_eda/tasks/orchestrator.py:295-360 | the process's own queue if it is configured and answers, else as above |
| Dispatch.Dispatcher.QueueDispatch | src/aap_eda/tasks/orchestrator.py:191-288 | at most one enqueue, to a configured queue that answered a check of this dispatch; one declined past the lock probe leaves WORKERS_OFFLINE if its own queue is silent and it is neither pending nor restarted, else PENDING; before the probe nothing changes |
| Dispatch.Dispatcher.LiveActivations | src/aap_eda/tasks/orchestrator.py:593-600 | the activations of just the starting, running and offline processes, one for each process, in their order |
| Dispatch.Dispatcher.MonitorRulebookProcesses | src/aap_eda/tasks/orchestrator.py:576-610 | every listed request is dispatched, in order, then every process that is starting, running or offline after that; each as `QueueDispatch` promises from the tables the one before has left; what is enqueued are exactly the accepted ones, in order |
| Dispatch.AnsweredIsEnqueued | src/aap_eda/tasks/orchestrator.py:576-610 | in such a pass, when the queues it asks answer, a dispatch is enqueued exactly if its activation exists and nobody holds the lock |
| Dispatch.AcceptedIsRouted | src/aap_eda/tasks/orchestrator.py:576-610 | all that a pass enqueues belongs to one of its dispatches, and goes to a configured queue that answered it |
| Dispatch.LoadCounts | src/aap_eda/tasks/orchestrator.py:440-455 | the load of a queue is the number of its running and starting processes |
| Dispatch.AllAliveIsLeast | src/aap_eda/tasks/orchestrator.py:440-464 | when all queues answer, the choice has the least load of all configured queues |
| Dispatch.StartsStayBalanced | src/aap_eda/tasks/orchestrator.py:440-464 | any number of starts, each counted before the next, leaves the loads no further apart than before, or than one |
| Dispatch.DispatchesStayBalanced | src/aap_eda/tasks/orchestrator.py:191-288 | so do any number of dispatches of starts, each as `QueueDispatch` promises, when all queues answer |
| ActivationWorld.RowsOf | src/aap_eda/tasks/project.py:231-236 | a query returns every matching activation once, as it stands |
| ActivationWorld.PassEffect | src/aap_eda/tasks/project.py:240-255 | a loop over activations gives each one it has read its own effect, and changes no other row or queue |
| ProjectImport.ImportedIs | src/aap_eda/services/project/imports.py:112-132 | a completed import leaves who there is and what is queued, and gives each activation what its rulebook's file makes of it |
| ProjectImport.ImportedRulebooks | src/aap_eda/services/project/imports.py:163-180 | afterwards the project has just the rulebooks of its files, with their text and hashes, an unchanged one as it was; those of other projects are untouched |
| ProjectImport.SameCommit | src/aap_eda/services/project/imports.py:118-128 | importing the commit already synced reads nothing |
| ProjectSync.AfterSyncEffect | src/aap_eda/tasks/project.py:199-220 | the restarts and the resumptions after a sync concern disjoint activations, so each has one effect at most |
| ProjectSync.SyncResolves | src/aap_eda/tasks/project.py:145-220 | after the import each activation that waited ends in exactly one way, enabled and started, restarted, or in error, with its rulebook's content; each checked one is restarted exactly when its unmapped rulebook changed or it had failed; nobody gets more than one request, and the others stay as the import left them |
| ProjectSync.UncheckedFollows | src/aap_eda/services/project/imports.py:209-227 | an activation that does not restart by itself has the new text when its rulebook changed, and the new hash unless it is source-mapped; it gets no request |
| ProjectSync.UnchangedFileKeepsText | src/aap_eda/services/project/imports.py:201-205 | with an unchanged rulebook a checked activation keeps the text it has, such as one with event streams, and only moves on to the new git hash |
| ProjectSync.SyncRestarts | src/aap_eda/tasks/project.py:231-321 | what a good sync does about an enabled activation that restarts by itself and does not wait: a restart when its rulebook changed, unless source-mapped, and when it did not and the activation is in FAILED or ERROR, source-mapped or not; ERROR when the push fails |
| ProjectSync.SyncEndsWaiting | src/aap_eda/tasks/project.py:145-196 | after a sync, good or bad, nobody waits for the project and it is neither PENDING nor RUNNING; after a bad one it is FAILED exactly if it was claimed or FAILED before |
| SyncRuns.SyncCaches | src/aap_eda/tasks/project.py:264-300 | a good sync of any commit caches rulebook and project hashes in every checked, unmapped activation whose rulebook exists after it |
| SyncRuns.UnchangedSync | src/aap_eda/tasks/project.py:264-356 | a further sync of the commit pushes a restart exactly for FAILED and ERROR ones whose push works; a failed push leaves ERROR; the others stay as they are |
| SyncRuns.RepeatedSyncs | src/aap_eda/tasks/project.py:223-356 | any number of them, with any status changes in between, pushes one restart for each time the activation is found failed |
| SyncRuns.AnySyncsThenDrain | src/aap_eda/tasks/project.py:145-220 | whatever syncs of whatever projects and outcomes, and monitor passes, follow each other, with any edits in between: if nobody else pushes, one drain serves the first of their requests and so at most one |
| SyncRuns.RepeatedSyncsThenDrain | src/aap_eda/tasks/activation_request_queue.py:104-127 | for syncs of one commit: one restart, exactly if some sync found the activation failed and could push |
| SyncDrain.Enqueue | src/aap_eda/tasks/activation_request_queue.py:25-51 | what tasks push for an activation that exists is in the table in their order |
| SyncDrain.DrainAfterSyncs | src/aap_eda/tasks/orchestrator.py:95-153 | after any syncs and monitor passes the worker's loop, with nobody else pushing, runs one request at most, the first of theirs |
| SyncDrain.DrainAfterRepeatedSyncs | src/aap_eda/tasks/orchestrator.py:95-153 | after syncs of one commit it runs one Restart, exactly if some sync found the activation failed and could push |
| ProjectMonitor.OrphansRecovered | src/aap_eda/tasks/project.py:606-669 | for any list of orphans: which activations are resumed, failed, failed after being resumed, or left |
| ProjectMonitor.MonitorOrphan | src/aap_eda/tasks/project.py:606-669 | an orphan of a completed project gets one request if its push works, and is in ERROR exactly if it does not or it is not the project's first orphan (else it keeps the status of a resumed one); any other orphan is in ERROR with none |
| ProjectMonitor.MonitorSettles | src/aap_eda/tasks/project.py:516-550 | with every project idle or stale, one pass leaves none PENDING or RUNNING and nobody waiting, fails just the stale projects, pushes at most one request each and touches no one else |
| ProjectMonitor.SecondOrphanInError | src/aap_eda/tasks/project.py:640-660 | tables in which two orphans are both enabled and started, and the second is left in ERROR |
| ProjectTasks.Database.CheckAndRestartActivation | src/aap_eda/tasks/project.py:264-321 | the saves and the push of one restart check, with its early returns |
| ProjectTasks.Database.RestartActivation | src/aap_eda/tasks/project.py:324-356 | the push, or status ERROR when it fails |
| ProjectTasks.Database.AutoRestartActivations | src/aap_eda/tasks/project.py:223-261 | the loop computes the restart pass |
| ProjectTasks.Database.UpdateActivationContent | src/aap_eda/tasks/project.py:359-375 | the object takes its rulebook's content, and its hash unless it is mapped |
| ProjectTasks.Database.ResumeWaitingActivations | src/aap_eda/tasks/project.py:378-460 | the loop computes the resume pass |
| ProjectTasks.Database.HandleSyncFailureActivations | src/aap_eda/tasks/project.py:463-501 | the loop fails whoever waits for the project |
| ProjectTasks.Database.HandleProjectErrorRecovery | src/aap_eda/tasks/project.py:686-723 | only a PENDING or RUNNING project becomes FAILED |
| ProjectTasks.Database.SyncRulebook | src/aap_eda/services/project/imports.py:194-227 | one file with its bulk updates of activations |
| ProjectTasks.Database.SyncRulebooks | src/aap_eda/services/project/imports.py:163-180 | all files, in whatever order, and the removal of rulebooks without one, come to the import in one piece |
| ProjectTasks.Database.ServiceSyncProject | src/aap_eda/services/project/imports.py:112-132 | the service, when it raises nothing, computes the import the theorems are about |
| ProjectTasks.Database.SyncProjectNoLock | src/aap_eda/tasks/project.py:145-220 | computes the sync the theorems are about |
| ProjectTasks.Database.RecoverStuckProjects | src/aap_eda/tasks/project.py:555-603 | fails just the projects past the threshold in the given state, and counts them |
| ProjectTasks.Database.RecoverOrphanedAwaitingActivations | src/aap_eda/tasks/project.py:606-669 | the loop, with its set of resumed projects, computes the orphan recovery |
| ProjectTasks.Database.MonitorProjectTasks | src/aap_eda/tasks/project.py:516-550 | computes the monitor pass |
| ActivationViews.SyncProjectIfNeeded | src/aap_eda/api/views/activation.py:681-740 | the flag stays set exactly if a sync is under way or could be submitted; else ERROR |
| ActivationViews.Start | src/aap_eda/api/views/activation.py:404-468 | the view, step by step, gives the reply that the theorems about views are about |
| ActivationViews.DisableActivation | src/aap_eda/api/views/activation.py:496-537 | so does this; when it succeeds the activation is neither enabled nor waiting, and what an exception leaves behind is part of the reply |
| ActivationViews.RestartActivation | src/aap_eda/api/views/activation.py:574-632 | so does this |
| ActivationViews.DestroyActivation | src/aap_eda/api/views/activation.py:226-265 | so does this: status, flag and Delete together or none of them |
| ViewOutcomes.EnableOutcome | src/aap_eda/api/views/activation.py:404-468 | which calls are accepted: a Start with PENDING and no failures counted exactly for an activation that is off, at rest, valid, and need not wait for its project; which ones wait, and what the others leave |
| ViewOutcomes.DisableOutcome | src/aap_eda/api/views/activation.py:496-537 | a Stop exactly for an enabled activation whose workers are there or that is forced, showing STOPPING exactly if it was starting or running |
| ViewOutcomes.RestartOutcome | src/aap_eda/api/views/activation.py:574-632 | a Restart exactly for an enabled one that has workers, is valid and need not wait, its row left alone; an invalid one is stopped and put in error |
| ViewOutcomes.DestroyOutcome | src/aap_eda/api/views/activation.py:226-265 | a Delete, status and flag exactly when its workers are there or it is forced, whatever its status; else nothing |
| ViewRuns.AnswersIsAct | src/aap_eda/api/views/activation.py:226-632 | what a view leaves in the tables is its act in the runs below |
| ViewRuns.EveryRequestIsJustified | src/aap_eda/api/views/activation.py:404-632 | whoever acts, at most one request is queued for an activation: a Start only when it goes from disabled to enabled, a Restart only while enabled, a Stop when it is disabled or found invalid, a Delete with its status; and nobody but disable switches it off |
| ViewRuns.StartsNeedDisables | src/aap_eda/api/views/activation.py:404-537 | in any run of views, syncs and monitor passes the Starts queued are at most the times it was disabled, plus one if it is enabled now, less one if it was at first |
| ViewRuns.DeletingStays | src/aap_eda/api/views/activation.py:226-265 | while an activation is being deleted, any number of view calls leaves it as it is, not waiting, and queues nothing for it but Deletes |
| ViewRuns.DeletionWins | src/aap_eda/api/views/activation.py:226-265 | after an accepted deletion, whatever users and tasks do, what will be served is a Delete, alone |
| ViewRuns.EnabledBySync | src/aap_eda/api/views/activation.py:681-740 | an activation enabled through a sync is started exactly once if the sync succeeds, and in error, disabled and not started if it fails |
| DisableRace.DisableSticks | src/aap_eda/tasks/project.py:231-236 | in every interleaving of sync, failure and monitor passes a disabled activation out of their reach gets no request and stays disabled |
| DisableRace.DisableSticksIff | src/aap_eda/tasks/project.py:264-321 | after any run, a disabled activation gets a request in some continuation exactly if a task has read it that resumes it, has its restart still to push, or whose check wants the restart with the rulebook as it is now |
| RequestBounds.MostRequestsIff | src/aap_eda/tasks/project.py:223-460 | after any run and for any activation: unless a task reads it anew or its user acts, at most n more requests come, whoever else acts, exactly if at most n tasks will push for it |
| WaitRace.StageStep | src/aap_eda/tasks/project.py:378-460 | whoever acts, as long as tasks read it one by one and no check does: an activation that waits is saved, then started or in error, and never goes back |
| WaitRace.WaitingEndsOnce | src/aap_eda/tasks/project.py:378-501 | so in every run it waits still, or has been resolved once, with one request of the kind its switch asked for, or none if it failed |
| WaitRace.TwoReadersPushTwice | src/aap_eda/tasks/project.py:606-669 | when a sync and the monitor have both read it, a run of the two in which it gets two requests |
| Interleaving.StepEvolves | src/aap_eda/tasks/project.py:133-142 | no step of anybody changes the hash of a rulebook while a sync of its project is at its restarts, or its project ever |
| Interleaving.ImportHappens | src/aap_eda/tasks/project.py:133-142 | a sync imports exactly when its project exists and no other sync of it is at its restarts |
| Interleaving.OpenHappens | src/aap_eda/tasks/project.py:133-142 | any other task begins whenever it likes, restarts only one sync at a time |
| Interleaving.DeletionHappens | src/aap_eda/core/models/activation.py:76-81 | with a project go its rulebooks, and activations lose both |
| Interleaving.SkipHappens | src/aap_eda/tasks/project.py:618-639 | only a task that fails activations passes some over |
| SyncSteps.PassAlone | src/aap_eda/tasks/project.py:223-261 | save by save and push by push, a task that nobody interferes with ends as its loop |
| SyncSteps.SyncIsRun | src/aap_eda/tasks/project.py:145-220 | whatever went on before, a sync let alone from here on ends as `SyncProject` says |
| ImportStates.ExecInv | src/aap_eda/api/views/project.py:221-241 | in every run of locked transactions the committed changes form a chain, each one its actor may make |
| ImportStates.ClaimsAlternate | src/aap_eda/api/views/project.py:328-361 | between two claims through the views somebody else's change ended PENDING or RUNNING |
| ImportStates.CompletedIsKept | src/aap_eda/tasks/project.py:579-594 | recovery and monitor only turn PENDING into FAILED; COMPLETED is left only by a claim; RUNNING is never committed |
| ImportStates.ClaimEnds | src/aap_eda/tasks/project.py:700-712 | in every run the next change after a claim is the sync task's COMPLETED, or FAILED by recovery or monitor |
| TaskTransactions.SyncIsTransactions | src/aap_eda/tasks/project.py:145-196 | a sync leaves the state of its project as those transactions do: a finished import committed, or a rollback and then the recovery |
| TaskTransactions.MonitorIsTransactions | src/aap_eda/tasks/project.py:555-603 | so does the monitor, by one transaction if the project has been in the state it saw too long |
| TaskTransactions.UnfinishedIsNotCommitted | src/aap_eda/services/project/imports.py:58-95 | a sync that has only saved RUNNING cannot commit, and its rollback leaves no trace |
| TaskTransactions.LockedIsExclusive | src/aap_eda/api/views/project.py:221-241 | while one holds the row nobody else locks or deletes it |
| ProjectViews.ViewIsTransaction | src/aap_eda/api/views/project.py:328-361 | what the views do to the state is one transaction of those runs, a change exactly when they claim |
| ProjectViews.ProjectRow.MarkPendingIfIdle | src/aap_eda/api/views/project.py:221-241 | claims exactly when the state read under the lock is idle |
| ProjectViews.ProjectRow.PartialUpdate | src/aap_eda/api/views/project.py:243-300 | saves just the assigned fields over what others saved; claims exactly when the url, branch or refspec is among them and the project is idle, and dispatches exactly then; a denied update changes nothing |
| ProjectViews.ProjectRow.Sync | src/aap_eda/api/views/project.py:322-371 | accepted exactly when permitted, idle and submitted; otherwise nothing changes, and the answer says what was missing |
| ExtraVars.StripInject | src/aap_eda/api/serializers/activation.py:234-323 | stripping after injecting gives back the user's variables exactly when no credential of the list has a key of theirs |
| ExtraVars.InjectedAre | src/aap_eda/api/serializers/activation.py:250-295 | what injecting adds are just the variables of credentials other than vault and AAP ones |
| ExtraVars.RoundTrip | src/aap_eda/api/serializers/activation.py:1553-1592 | after validation that comes down to the vault credentials and those added later |
| ExtraVars.CredentialsChange | src/aap_eda/api/serializers/activation.py:909-970 | after a change of credentials: the user's variables unchanged, each new credential's with its own values, and nothing of the old ones |
| ExtraVars.AcceptedIsUnmixed | src/aap_eda/api/serializers/activation.py:1553-1592 | validated credentials meet the condition of that theorem |
| ExtraVars.RefreshIsInjectIff | src/aap_eda/api/serializers/activation.py:265-295 | refreshing equals injecting everything exactly when the document already holds the current variables of every credential that has an injector, empty or not, behind it |
| ExtraVars.RefreshMissesOne | src/aap_eda/api/serializers/activation.py:286-295 | a document for which it does not |
| ExtraVars.RefreshPutsBack | src/aap_eda/api/serializers/activation.py:265-295 | a last credential with an empty injector puts the old value back, one without an injector does not |
| ExtraVars.RoundTripLosesOne | src/aap_eda/api/serializers/activation.py:1575-1592 | an accepted list for which stripping takes away a variable of the user's |
| ExtraVars.UpdateExtraVars | src/aap_eda/api/serializers/activation.py:234-295 | the loop injects every credential but vault and AAP ones, each over the ones before |
| ExtraVars.RefreshExtraVars | src/aap_eda/api/serializers/activation.py:286-295 | the same loop on an existing activation, each over the stored document |
| ExtraVars.UserExtraVars | src/aap_eda/api/serializers/activation.py:298-323 | removes just the keys of all credentials |
| ExtraVars.CheckInjectors | src/aap_eda/api/serializers/activation.py:1765-1781 | accepts exactly keys not met before, and then remembers them |
| ExtraVars.ValidateEdaCredentials | src/aap_eda/api/serializers/activation.py:1553-1592 | accepts exactly lists of existing credentials of which no two, vault ones aside, share a key of one injector, nor one an extra variable with the user; an error names a missing credential or such a key |
| SourceMappings.BuildSourceList | src/aap_eda/core/utils/rulebook.py:26-70 | names every source, a taken or missing name becoming the default for its position |
| SourceMappings.TakesDefaultIs | src/aap_eda/core/utils/rulebook.py:47-65 | which sources end up with their default name, said of the given names alone |
| SourceMappings.NamesDistinctIff | src/aap_eda/core/utils/rulebook.py:47-65 | the names are distinct exactly when no source is given the default name that a later one takes |
| SourceMappings.ClashExample | src/aap_eda/core/utils/rulebook.py:47-65 | a rulebook in which one does |
| SourceMappings.CheckDuplicateNames | src/aap_eda/api/serializers/activation.py:1742-1762 | fails exactly with the names used more than once |
| SourceMappings.GetEventStreamIds | src/aap_eda/api/serializers/activation.py:1715-1739 | the set of ids, exactly when every stream exists under its name |
| SourceMappings.ValidateSources | src/aap_eda/api/serializers/activation.py:1613-1698 | accepts exactly what is acceptable, said of the mappings as parsed, and then returns as many ids as there are mappings; any rejection is for a reason that holds |
| SourceMappings.AsManyIds | src/aap_eda/api/serializers/activation.py:1715-1739 | matching streams with distinct names have distinct ids |
| SourceMappings.ReplacesOneEach | src/aap_eda/core/utils/rulebook.py:85-135 | with distinct names an accepted list replaces one source for each mapping, and no other |
| AuditStore.Consumer.InsertAuditRuleData | src/aap_eda/wsapi/consumers.py:463-481 | an unknown process is an error that changes nothing; otherwise the message is inserted |
| AuditStore.Consumer.GetOrCreateAuditRule | src/aap_eda/wsapi/consumers.py:491-524 | finds or adds the firing's row; a failed one stays failed |
| AuditStore.Consumer.ProcessMatchingEvents | src/aap_eda/wsapi/consumers.py:564-583 | first writer wins for each event, every reported event is linked |
| AuditStore.StoreIsSummary | src/aap_eda/wsapi/consumers.py:463-583 | after any messages: one rule row per firing, failed if any was, else with the last status; one action and one event per id, as first reported; links for exactly the pairs reported |
| AuditStore.RedeliveryIff | src/aap_eda/wsapi/consumers.py:491-583 | a handled message may come again without effect exactly when its rule has failed or has its status |
| AuditStore.LastMessageAgain | src/aap_eda/wsapi/consumers.py:463-583 | the last message may always come again |
| PgNotify.Channel.Notify | src/aap_eda/services/pg_notify.py:51-95 | below the limit one whole message, else the pieces numbered from one, each with the advertised count |
| PgNotify.PieceSizes | src/aap_eda/services/pg_notify.py:79-83 | no piece is empty or too long, and only the last may be short |
| PgNotify.PieceCount | src/aap_eda/services/pg_notify.py:79-83 | there are as many pieces as the length needs |
| PgNotify.AdvertisedCount | src/aap_eda/services/pg_notify.py:67-69 | the count is never too low, and right exactly when the size does not divide the length |
| PgNotify.ArrivalOrderIsIrrelevant | src/aap_eda/services/pg_notify.py:79-91 | in whatever order the pieces arrive, joining them by number gives the payload |

## Left out

- DeletionIsFinal: says of each run which younger requests may still start; over all runs `FinalIff` decides it at the commit, and `NothingAfterDeletionIff` at the removal.
- BoundedBypass: has its exception stated over the run; `BoundedBypassIff` states it over the moment of the commit.
- `list_requests` and which row it picks to represent an activation: the dispatch of any request is a step that may happen at any time.
- The activation manager, its containers and pods, and its policies of restarting: an opaque step that may raise, set a status or delete the activation.
- Cloning, and how files are found and validated in a commit; two files of one name, which the directory walk cannot give.
- A push and the deletion of its parent running at the same instant: the check of the parent is part of the push.
- Failing database saves, except of rows that are gone; and a failing lock connection.
- Tasks interleaved with each other and with users: the theorems say which requests and which end an activation gets (`DisableRace`, `RequestBounds`, `WaitRace`); what content it ends with, and what a whole sync or monitor pass settles, is stated of a task that is let alone.
- Extra variables as text: an empty document and one with no variables are the same here; encryption of secret fields is part of the value given with a credential.
- Floating point in the chunk count: exact below 2^53 characters.
- Organization, URL and job of an audit row; a failure halfway through one message.
- Creating, copying and editing activations, other than their extra variables and mappings.
- Serializer fields, permissions, filters, pagination, authentication, logging, analytics and settings.
