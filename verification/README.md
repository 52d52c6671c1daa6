# A verified model of the runner control plane

The runner executes untrusted commands in gVisor sandboxes on Kubernetes. Its control plane is
a set of durable state machines written in Python: they keep JSON files, may crash anywhere, and
promise that one Working Area has one writer, that nothing is replayed, that evidence precedes
release, and that a fence precedes replacement. This project models those machines in Dafny and
proves the promises over every run, with crashes, restarts and concurrent requests included.

Kubernetes, the node, clocks and the sandboxes are a nondeterministic environment: their answers
are parameters of methods or free choices of steps.

| module | what it models |
|---|---|
| `OperationJournal`, `LateCancels`, `WedgedRecords`, `RequestHandlers` | v1 operations: Area fence, at-most-once Pod creation, cancel, acknowledgement, recovery, activity cache |
| `ExecutionPods`, `SpaceController` | v2 Execution Pods: epochs, guard bindings, the "termination unconfirmed" bit, command lifecycle, recovery |
| `AllocationEvidence`, `AllocationJournal`, `Rotation` | billing receipts, quarantine, indexes over files, paging and housekeeping laps |
| `PodDeletion`, `NewestWork`, `EarlyDeletions` | operations and allocation files side by side: when a Pod may be deleted, and when its newest work is waited for |
| `NodeGuard` | tombstones, the epoch fence, durable cleanup obligations |
| `Installer` | fence, drain, replace, unfence |
| `ResultFrames` | the nonce-framed result writer and the streaming reader |
| `CaptureBarrier` | the drain thread and the marker barrier of a Python session |
| `StagedInput` | chunked upload, forwarding and publication of input files |
| `SchemaClosure` | the closure of schemas over a possibly cyclic reference graph |
| `Common` | options, results and byte search |

Concurrent protocols are state machines: a step is one durable save, one request to the outside
or one move of the environment, and theorems range over all finite runs (`IsRun`). Objects with
methods are classes; each method states the whole new state, keeps the class invariant, and where
a machine exists equals steps of it. A ghost `history` of durable states makes "across a crash at
any point" a statement about any two positions of that history.

## Results that are not what the source promises

- **A cancel can be late.** `cancel` (runner/control.py:1352-1361) reads the record and writes it
  without holding the lock in between. It is *late* if it read `awaiting_files` and the operation
  is meanwhile writing or on its way to a first write, or if it read an uncertain outcome and
  the operation is meanwhile recorded as stopped, and not acknowledged, while a live Pod waits for
  its code. Then
  the recorded stop is false: `LateExactly` proves, for every run without late cancels before,
  that the operation can write although recorded as stopped if and only if the cancel is late.
  `LateCancelTwoWriters` and `ReopeningCanBeLate` are runs with one of each kind; in the first,
  two operations end up writing to one Area. `OneWriter` and `StoppedForGood` hold in all runs
  without late cancels. At-most-once creation, the journal fence and the activity cache hold in
  all runs.
- **A cancel can reopen a harvest.** Two cancels that have both read an uncertain outcome: the
  first leads to a harvested end, the second then sets the record back to `cancelling`
  (`ReopenUndoesHarvest`). `ReopensExactly` gives the exact condition. `HarvestedForEver` and
  `DeletedWhenDone` hold in all runs without such a cancel. `ReopenedExactly` says when such a
  cancel leaves permission for work that is not done. `ReopenedDeletes` and `AcknowledgedDeletes`
  are whole runs in which a Pod is then deleted; in the second the work is a Python operation whose
  outcome was acknowledged in between.
- **An acknowledged record can keep the runner from ever serving again.** `acknowledge` empties the
  saved request (runner/control.py:584), and `start` reads it first (runner/control.py:598), so a
  cancel that reopens an acknowledged record saves `cancelling` and then fails to start a thread. The
  record is *wedged*: acknowledged, and neither terminal nor waiting for files. The startup scan
  fails on it (runner/control.py:179-190), and so does every start after that. `ServesExactly`
  proves for every reachable starting state that the start can complete if and only if no record is
  wedged, `NeverServes` that it otherwise never does, through any number of restarts. The second
  locked section of `acknowledge` tests neither the status nor the thread again, so a cancel between
  the two sections has the same effect. `WedgesExactly`: after every run without such cancels, a
  further cancel makes a wedged record possible if and only if it is of the reopening branch and the
  outcome is acknowledged or an acknowledgement has passed its tests. `NeverWedged` holds in all runs
  without such cancels, and `RunnerNeverServesAgain` is a run with one.
- **A preview's thread deletes its Pod first.** `stop_serve` and its callers
  (runner/control.py:972-1002, 1090-1112) delete a Live preview's Pod before they save that it
  ended, past the allocation journal. `OutrunsExactly`: in every run without reopening cancels a
  deletion comes before the Pod's current work is terminal and harvested if and only if it is such
  a deletion; `PreviewOutruns` is a run.
- **An older operation of a session can take the Pod back.** An operation that is accepted
  into a session's Pod becomes the Pod's current work, and the permission to delete the Pod is
  withdrawn until that work is harvested too. But `begin_allocation_work`
  (runner/allocation_usage.py:216-225) compares nothing with the work it replaces: a cancel of
  an earlier operation of the Pod, whose outcome was uncertain, starts its thread again
  (runner/control.py:594-603) and makes it current while the newest is still running. The thread
  stops the sandbox that both share, the earlier operation is harvested and reported, and the Pod
  is deleted while the newest is recorded as running and nothing of it is harvested
  (`RestartDeletes`; the cancel is neither late nor reopening). `EarlyExactly` proves for every run
  without reopening cancels that a deletion comes before the Pod's newest work is done if and only
  if a preview's thread asks for it, or such a *displacing* start, of an operation other than the
  newest while the newest is not done, came before it and nothing has made it good since: the newest
  was neither started again, nor seen at a greater epoch, nor harvested, and no newer one was let in.
  What a displacing start leads to depends on the node guard. If the guard is not bound to a greater
  epoch and the Pod is up, an early deletion can follow (`DisplacesDeletes`). If it is, the guard
  refuses the older operation for ever (`BehindFence`), and the Pod is left without an owner: it is
  not deleted, whatever the newest operation does, until its file is changed by another start or
  observation (`FencedNeverDeletes`, `NewestAloneNever`).
- **A crash inside a stop.** `_stop` (runner/execution_pod.py:712-725) records running commands as
  interrupted before their Pod is ended. A crash in that window leaves neither a confirmed
  termination nor the unconfirmed bit, and recovery skips the command because it is no longer
  running. Recovery still stops the Pod if another command of it is recorded as running; the state is
  *stranded* if none is, the Pod is there and its guard binding is live. `StrandedExactly` proves,
  after every run without a crash in a stranded state before, that a crash makes it possible to let in a
  command or reserve an epoch too early, other than as in the next paragraph, if and only if the state
  is stranded. `StrandedReadmits` shows it from every stranded state, `CrashInsideStopReadmits` is a
  run. A *new* Pod is never created too early (`ReservedAfterTermination`).
- **A mark can come too late for a command.** A new command is tested against the unconfirmed bit and
  accepted in two locked sections with a look at the Pod in between
  (runner/execution_pod.py:1084-1092), and the second tests only the admission. A worker whose stop of
  the Pod failed marks the Space and records its command as interrupted without the Space lock
  (runner/execution_pod.py:1250-1253). `TooEarlyExactly` proves, in every run without a crash in a
  stranded state, that a command is accepted before the Pod of an interrupted one is confirmed
  terminated if and only if, between its test and its acceptance, a worker marked the Space and a
  worker recorded a running command of a Pod not confirmed terminated as interrupted.
  `AcceptedTooEarly` is a run without any crash, and `NothingNewBeforeTermination` holds for all other
  acceptances and for every reserved epoch.
- **Previews do fence.** A comment (runner/control.py:448-450) says that a Live preview does not
  fence later turns. The scan for unaccounted Pods selects by the Area label, which previews carry
  (runner/control.py:667-669): in no run is a writer accepted while a preview of its Area runs
  (`PreviewHoldsUp`), even if the Area has no holder at all (`PreviewFences`). `PreviewBarsExactly`:
  where nothing else bars the writer, the preview does exactly while its Pod is live.
- **A live v1 record can be replaced** in the node guard without a tombstone: `LiveRecordReplaced`
  does it with two requests, and `Handle` states exactly when a live record is replaced, and that the
  replacing save is the very next one. v2 refuses it except for the handoff within one Pod, and the tombstone theorems are stated accordingly.

## Model

| member | source | states |
|---|---|---|
| OperationJournal.EventKeepsRecord | runner/control.py:351-357 | No event of any thread, request or restart withdraws a writer's stop proof or a requested cancel, changes a record's identity, or returns it to a status from which a Pod could be created; the at-most-one-creation invariant is kept |
| OperationJournal.EventKeepsTruthful | runner/control.py:812-962 | Every event but a late cancel keeps stop proofs true: a non-preview operation with a proof is not writing, no thread of it is on its way to a first write, and no restart resumes it |
| OperationJournal.EventKeepsSteady | runner/control.py:1132-1198 | Every event but a reopening cancel keeps a record that is harvested or being harvested terminal and without a working thread |
| OperationJournal.ReopensExactly | runner/control.py:1352-1361 | A cancel unsettles a harvest if and only if it read an uncertain outcome without confirmed stop and hits a record that is harvested or being harvested; only then a done record is no longer done |
| OperationJournal.TimelyCancel | runner/control.py:1352-1361 | A cancel that still finds what it read is neither late nor reopens a harvest |
| OperationJournal.FencedAdmitted | runner/control.py:442-494 | Accepting a new operation keeps one writer per Area: the previous holder is terminal with a stop proof, and the Area file names the new one |
| OperationJournal.StepKeeps | runner/control.py:442-603 | Every step, crashes and stale cancels included, keeps the Area fence, at most one creation per operation, and the activity cache equal to the tracked records |
| OperationJournal.RunKeeps | runner/control.py:442-494 | In every reachable state every non-preview operation other than its Area's holder has a stop proof |
| OperationJournal.RunCreatesOnce | runner/control.py:1200-1214 | No run, with any crashes, restarts and interleavings, asks twice for the creation of one operation's Pod |
| OperationJournal.CountMatches | runner/control.py:817-822 | The per-operation counter is the number of creations that the steps of the run contain |
| OperationJournal.ProofStays | runner/control.py:1352-1361 | Between any two moments of any run a stop proof stays, identity is fixed, and no record goes back before its first creation attempt |
| OperationJournal.CancelIsHeard | runner/control.py:1352-1361 | A cancel that read unfinished work, or an uncertain outcome without confirmed stop, is requested in every later state of the run, stale or not |
| OperationJournal.AcceptedAsAsked | runner/control.py:471-494 | An accepted operation has its request's Area, epoch, kind and both digests for ever; it waits for files exactly if it brings some and joins no session, otherwise it has a thread, and a writer holds its Area |
| OperationJournal.OutcomesAreAccounted | runner/control.py:942-957 | In every run a non-preview record that is completed, failed or cancelled has a stop proof; completed or failed it is harvested; cancelled it was asked to be |
| OperationJournal.EndsAsSeen | runner/control.py:909-957 | In every run an ended Python writer is recorded as frozen or confirmed, whichever was seen, any other as confirmed; then exactly the outcome with its output; a refused export or a lost sandbox as failed and confirmed; a preview as its thread ends it; giving up only makes the outcome uncertain |
| OperationJournal.ProbesAreRetired | runner/control.py:168-169 | An admission probe that a start retires has a stop proof in every later state |
| OperationJournal.EpochsGrow | runner/control.py:462-470 | The epoch of an Area's holder never decreases |
| OperationJournal.ActivityIsFresh | runner/control.py:86-105 | Whenever requests are served, the cached unsettled set equals what reading the whole journal gives |
| OperationJournal.OneWriter | runner/control.py:442-494 | At no moment of a run without late cancels do two non-preview operations write to one Area, and the writer is the one the Area file names |
| OperationJournal.StoppedForGood | runner/control.py:448-470 | In a run without late cancels a non-preview operation that is recorded as stopped never writes again |
| OperationJournal.HarvestedForEver | runner/control.py:179-190 | In a run without reopening cancels an operation that is terminal with harvested output stays so in every later state |
| OperationJournal.PreviewHoldsUp | runner/control.py:448-461 | Whenever a non-preview operation is accepted, no Pod of its Area is live but that of its own Python session; so none is accepted while a preview of the Area runs |
| OperationJournal.PreviewBarsExactly | runner/control.py:448-461 | A writer that nothing else bars is accepted if and only if the Pod of a preview in its Area is not live |
| LateCancels.LateExactly | runner/control.py:1352-1361 | After any run without late cancels, a further cancel makes it possible that the operation writes although recorded as stopped, in some continuation without late cancels, if and only if it is late; reopening an acknowledged record is not, because no thread starts without its request |
| LateCancels.LateCancelTwoWriters | runner/control.py:1352-1361 | A run in which a late cancel leads to two operations writing to one Area |
| LateCancels.ReopeningCanBeLate | runner/control.py:1352-1361 | A run in which a cancel of an uncertain record is late, because an earlier one has meanwhile recorded the operation as stopped |
| LateCancels.ReopenUndoesHarvest | runner/control.py:1352-1361 | A run in which an operation is terminal with harvested output and a cancel that had read it as uncertain reopens it |
| LateCancels.PreviewFences | runner/control.py:448-461 | A run after which an Area has no holder and a running preview, and no request for a writer of it is accepted |
| WedgedRecords.NeverWedged | runner/control.py:555-603 | In every run without a cancel that reopens an outcome which is acknowledged, or whose acknowledgement has passed its first section, no acknowledged record is ever left neither terminal nor waiting for files |
| WedgedRecords.WedgesExactly | runner/control.py:1352-1361 | After any run without such cancels, a further cancel makes such a record possible, in some continuation without them, if and only if it read an uncertain outcome without confirmed stop and the outcome is acknowledged or an acknowledgement of it has passed its first section |
| WedgedRecords.NeverServes | runner/control.py:179-190 | A start that finds such a record stays a start, and the record as it is, in every later state of every run, further restarts included |
| WedgedRecords.ServesExactly | runner/control.py:179-190 | From every reachable starting state a run without a crash leads to serving requests if and only if there is no such record |
| WedgedRecords.RunnerNeverServesAgain | runner/control.py:1352-1361 | A run in which the second of two cancels reopens an acknowledged record, after which and after one crash no continuation ever serves a request |
| RequestHandlers.Runner.Put | runner/control.py:351-357 | Saving what an event makes of a record is exactly that step of the machine, and starts a thread only if the event does |
| RequestHandlers.Runner.CommitInputs | runner/control.py:527-541 | Commits exactly when the record awaits files and they are complete: it is then accepted and has a thread; otherwise nothing changes |
| RequestHandlers.Runner.Cancel | runner/control.py:1352-1361 | With nothing between read and write: a record that awaited files ends cancelled and confirmed, an uncertain one without confirmed stop is cancelling and, unless acknowledged, gets a thread, other unfinished work is marked as asked to stop, and an outcome stays; the answer is the saved record, and it fails only for an unknown operation or after reopening an acknowledged record; the cancel is neither late nor reopens a harvest |
| RequestHandlers.Runner.FindRoom | runner/control.py:451-470 | Finds room exactly when every listed Pod is the session's or a terminated one of another operation, the epoch is not behind the Area file's, and the operation it names is terminal and confirmed stopped or frozen |
| RequestHandlers.Runner.Accept | runner/control.py:442-494 | A known operation answers from its record or conflicts by digest; a new one is admitted exactly when there is room, as one accept step: the answer is the saved record with the request's identity and digests, the Area file names it, and it has a thread unless it waits for files |
| RequestHandlers.Runner.Acknowledge | runner/control.py:555-592 | Acknowledges exactly a ready, inactive outcome with the right digest, an uncertain one only with the digest of its saved output, which the record then keeps, and later with the same one, as its two locked sections with nothing between them; without saved output it starts a harvest instead |
| RequestHandlers.Runner.RecordAcknowledged | runner/control.py:578-592 | The second locked section is one step whatever the record has become since the first: it adopts the output if the first found the outcome uncertain and nobody has acknowledged it since |
| RequestHandlers.Runner.Restart | runner/control.py:108-120 | A crash keeps the files and loses every thread and the whole cache |
| RequestHandlers.Runner.Recover | runner/control.py:179-190 | The startup scan fails exactly if some acknowledged record is neither terminal nor waiting for files; otherwise it leaves the journal alone, makes the cache equal to the unsettled records, starts exactly the interrupted operations and only then serves requests |
| RequestHandlers.Runner.Activity | runner/control.py:1363-1369 | The reported number is the number of records whose writer may still run |
| ExecutionPods.EventKeepsCommand | runner/execution_pod.py:1019-1030 | Every event keeps status and future in agreement and moves a status only from queued to running, from running to an end other than cancelled, or from queued to cancelled |
| ExecutionPods.StepKeepsBound | runner/execution_pod.py:758-817 | Every step keeps: each Pod ever bound to a guard is the bound one or confirmed terminated, a confirmed one is not alive, and commands ran only in bound Pods |
| ExecutionPods.StepKeepsCount | runner/execution_pod.py:1124-1153 | Every step keeps the foreground counter equal to the number of unfinished foreground futures |
| ExecutionPods.StepKeepsProtected | runner/execution_pod.py:712-744 | Every step but a crash keeps each interrupted command's Pod confirmed terminated, covered by the unconfirmed bit, or being stopped |
| ExecutionPods.CrashProtectsExactly | runner/execution_pod.py:712-725 | A crash breaks that protection if and only if a stop has begun, the Space is not marked, the guard binding is live and a command of the bound Pod is recorded as interrupted |
| ExecutionPods.RunKeeps | runner/execution_pod.py:1084-1153 | In every reachable state the guard bindings, the command records and the foreground counter agree |
| ExecutionPods.ReservedAfterTermination | runner/execution_pod.py:647-706 | Whenever an epoch is reserved, every Pod ever bound to a guard is confirmed terminated and not alive, and the epoch grows by one |
| ExecutionPods.EpochsGrow | runner/execution_pod.py:1388-1403 | Epochs never decrease over any run |
| ExecutionPods.TerminatedStays | runner/execution_pod.py:775-817 | A confirmed termination is never forgotten |
| ExecutionPods.CommandsMoveForward | runner/execution_pod.py:1184-1256 | Over any stretch of any run, restarts included, a command keeps its identity, an end is final, and what ran is never queued or cancelled |
| ExecutionPods.SubmittedAsAsked | runner/execution_pod.py:1100-1136 | A command keeps for ever the digest and mode it was submitted with and the Pod that was admitted then, and starts queued and unsent |
| ExecutionPods.EndsAsReported | runner/execution_pod.py:1184-1256 | A command that is still open ends for ever as its worker reports, as interrupted when the worker gives up, and when a stop or a restart ends it as interrupted if it ran and cancelled if it was queued |
| ExecutionPods.EndsAfterRunning | runner/execution_pod.py:1184-1256 | A command that ended other than cancelled was running at an earlier moment of the run |
| ExecutionPods.RunSendsOnce | runner/execution_pod.py:1184-1215 | No run, restarts included, sends a command to its Pod twice |
| ExecutionPods.RunProtects | runner/execution_pod.py:746-850 | In every run without a crash in such a state, each interrupted command's Pod is terminated, marked or being stopped |
| ExecutionPods.StepKeepsShielded | runner/execution_pod.py:712-817 | Every step but a crash keeps each interrupted command's Pod terminated, marked, being stopped, without a Pod object and an admission, or due to be stopped by the recovery in progress |
| ExecutionPods.CrashShieldsExactly | runner/execution_pod.py:974-1002 | A crash lifts that shield if and only if the state is stranded: a stop has begun, the Space is not marked, the guard binding is live, the Pod is there, a command of it is interrupted and none is running |
| ExecutionPods.RunShields | runner/execution_pod.py:974-1002 | The shield holds in every state of every run without a crash in a stranded state |
| ExecutionPods.NothingNewBeforeTermination | runner/execution_pod.py:833-838 | In every run without a crash in a stranded state, whenever an epoch is reserved, or a command is accepted with no mark and interruption between its test and its acceptance, the Pod of every interrupted command is confirmed terminated and not alive |
| ExecutionPods.TooEarlyExactly | runner/execution_pod.py:1084-1092 | In every run without a crash in a stranded state, a command is accepted while the Pod of an interrupted one is not confirmed terminated if and only if between its test and its acceptance a worker marked the Space and then one recorded a running command, of a Pod not terminated at the test, as interrupted |
| ExecutionPods.TooEarlyIsMarked | runner/execution_pod.py:1084-1092 | A command that is accepted too early is accepted into a marked Space |
| ExecutionPods.AcceptedTooEarly | runner/execution_pod.py:1250-1253 | A run without a crash in which the live Pod of an interrupted command takes a new command |
| ExecutionPods.StrandedReadmits | runner/execution_pod.py:974-1002 | From every reachable stranded state a crash leads, with all unfinished commands retired, to a state in which the same Pod takes a new command although the end of one in it is unknown, with no mark between test and acceptance |
| ExecutionPods.StrandedExactly | runner/execution_pod.py:712-725 | After every run without a crash in a stranded state, a crash makes it possible that an epoch is reserved too early, or a command accepted too early with no mark and interruption between its test and its acceptance, if and only if the state is stranded |
| ExecutionPods.CrashInsideStopReadmits | runner/execution_pod.py:712-725 | A run in which a crash inside a stop lets the live Pod of an interrupted command take a new command |
| SpaceController.Controller.SubmitCommand | runner/execution_pod.py:1054-1136 | In an unmarked Space accepts exactly a repeated request with the same digest, which changes nothing, or a new one for the admitted Pod, as its test, its look at the Pod and its acceptance with nothing between them |
| SpaceController.Controller.CancelledCommand | runner/execution_pod.py:1138-1153 | The callback is one step: it ends a withdrawn command as cancelled unless it was interrupted, counts the foreground job down by one and drops the future |
| SpaceController.Controller.InterruptSpaceCommands | runner/execution_pod.py:727-744 | Ends every unfinished command of the Space, running ones as interrupted and queued ones as cancelled with their futures withdrawn, and changes nothing else |
| SpaceController.Controller.TerminateRecordedPod | runner/execution_pod.py:775-817 | Succeeds exactly when the bound Pod is or gets confirmed terminated, no unbound Pod has started and a marked Space without binding has a Pod left; the Space changes only by the guard's answer: terminated and unmarked, or marked |
| SpaceController.Controller.Stop | runner/execution_pod.py:712-725 | Succeeds exactly when the bound Pod is or gets confirmed terminated, no unbound Pod has started, a marked Space without binding has a Pod left, and the Pod object is deleted; then there is no Pod, no admission and no mark. In every case all unfinished commands are ended, and the Space is marked or every Pod that ran a command is confirmed terminated |
| SpaceController.Controller.EnsurePod | runner/execution_pod.py:647-678 | Fails exactly if the Space is marked, or there is no Pod and the bound one is not confirmed terminated, and then marks it; keeps a Pod that is there; otherwise creates one under the next epoch, unbound and not admitted, with every guarded Pod confirmed terminated |
| SpaceController.Controller.ReserveEpoch | runner/execution_pod.py:1388-1403 | Reserving is one step of the machine, with every guarded Pod terminated |
| SpaceController.Controller.StopMatchingPod | runner/execution_pod.py:746-756 | Succeeds exactly when this Pod is or gets confirmed terminated and its object, if it is still the Space's, is deleted; it is no longer admitted, the Space is marked exactly if the guard did not confirm, and nothing known about the Pods of other commands is lost |
| SpaceController.Controller.RecoverCommands | runner/execution_pod.py:974-1002 | After a restart every unfinished command is retired, running ones as interrupted and queued ones as cancelled, with their Pods confirmed terminated or the Space marked; it is not marked if every such Pod could be ended; commands interrupted before are so too, unless the Pod object is gone |
| AllocationEvidence.CollectFinishes | runner/allocation_usage.py:126-141 | Yields the finishes of exactly the Pod's containers if and only if each ended once, with a usable time not before the start |
| AllocationEvidence.LatestFinish | runner/allocation_usage.py:142-142 | The end is the latest finish, the first of equals |
| AllocationEvidence.SameReceipt | runner/allocation_usage.py:143-150 | A rebuilt receipt equals the stored one if and only if the provider still reports the finishes it was made of |
| AllocationEvidence.Identify | runner/allocation_usage.py:99-121 | Accepts an observation exactly when identity matches and the start is not lost or changed; takes over a first start only, and newer work without any permission to delete |
| AllocationEvidence.SettleEvidence | runner/allocation_usage.py:130-164 | Writes a sound receipt exactly when all containers ended; refuses exactly when a receipt exists and its evidence is gone or different |
| AllocationEvidence.Assess | runner/allocation_usage.py:99-164 | An observation is accepted if and only if it contradicts nothing recorded before |
| AllocationJournal.Journal.ObserveAllocation | runner/allocation_usage.py:59-164 | Accepts an observation exactly when the Pod has the record's origin and a known file is neither quarantined nor contradicted, or a new one has a tenant; a Pod of another origin quarantines exactly the bound file, a contradiction exactly this one; an accepted one changes this file alone, as assessed |
| AllocationJournal.Journal.QuarantineAllocation | runner/allocation_usage.py:166-171 | Quarantine is saved and listed as incomplete |
| AllocationJournal.Journal.AllocationReceipts | runner/allocation_usage.py:173-185 | A page delivers exactly the receipts of its unacknowledged files that are neither quarantined nor pending, with the cursor of the next page |
| AllocationJournal.Journal.AcknowledgeAllocation | runner/allocation_usage.py:187-204 | Acknowledges exactly a deliverable file with the very receipt, and takes it off the pending index |
| AllocationJournal.Journal.BeginAllocationWork | runner/allocation_usage.py:216-225 | As a step of the joint machine the starting operation becomes the Pod's work, whatever was it before, and the permission to delete the Pod is withdrawn |
| AllocationJournal.Journal.AllocationHarvested | runner/allocation_usage.py:227-241 | Only a report of the current work at its epoch, after its output was saved, gives that permission |
| AllocationJournal.Journal.CloseAllocation | runner/allocation_usage.py:243-294 | The Pod's deletion is asked for exactly when it is permitted and the file is not quarantined, as a step of the joint machine; the file is then released exactly if it has a receipt and Kubernetes agrees, and incomplete without one |
| AllocationJournal.Journal.Conclude | runner/control.py:951-957 | A Python operation's end: its terminal save, its report and the deletion, which is asked for exactly if the Pod is not kept frozen, not quarantined, and its current work harvested |
| PodDeletion.StepKeeps | runner/allocation_usage.py:216-274 | Every step of operations and files together, but a reopening cancel, keeps permission and all deletions by the journal on work that is terminal with harvested output |
| PodDeletion.DeletedWhenDone | runner/allocation_usage.py:259-274 | In every joint run without reopening cancels the journal asks for a Pod's deletion only while the operation named as its current work is terminal with harvested output, and it stays so |
| NewestWork.StepKeepsHomed | runner/control.py:463-494 | Every step keeps: each Pod has a newest operation that follows all others of the Pod by epoch, its file names one of them at its epoch, and a preview has its Pod to itself |
| NewestWork.StandsExactly | runner/allocation_usage.py:216-225 | A step that reopens no harvest keeps a Pod's file on its newest work, or that work done, if and only if it is not a displacing start: of another operation of the Pod while the newest is not done |
| NewestWork.MakesGoodExactly | runner/allocation_usage.py:107-109 | A step brings a Pod whose file bypasses its newest work back in order if and only if it starts the newest, observes it at a greater epoch, harvests it or lets a newer one in |
| NewestWork.BypassedExactly | runner/allocation_usage.py:216-225 | At any moment of any run without reopening cancels a Pod's file bypasses its newest work if and only if a displacing start has not been made good |
| NewestWork.OutrunsExactly | runner/control.py:972-1002 | In every joint run without reopening cancels a deletion of a Pod comes before its current work is terminal with harvested output if and only if the thread of a Live preview asks for it |
| NewestWork.EarlyExactly | runner/allocation_usage.py:216-274 | In every joint run without reopening cancels, a Pod is deleted before the last operation that came to it is terminal with harvested output if and only if a preview's thread deletes it, or an older operation of the Pod was started while the newest was not done and nothing made that good in between |
| NewestWork.NewestAloneNever | runner/allocation_usage.py:227-241 | While a Pod's file names another operation than the newest, the newest cannot report, and the Pod is not deletable before that other operation is done, however the newest ends |
| NewestWork.BehindFence | runner/node_guard.py:479-481 | In every joint run without reopening cancels a Python operation that is behind the epoch the guard is bound to in its Pod stays behind it and is never harvested |
| NewestWork.FencedNeverDeletes | runner/node_guard.py:479-481 | A Pod whose current work is behind the guard's epoch and not harvested is not deletable, whatever other operations do, until a start or an observation changes its file |
| NewestWork.DisplacedDeletes | runner/allocation_usage.py:227-274 | From every state after a displacing start whose operation the guard answers, a run reaches permission to delete the Pod while its newest work is not done; the other Pods of the Area are taken to be on other nodes |
| NewestWork.DisplacesDeletes | runner/control.py:594-603 | From every displacing start after a run without reopening cancels, in a Pod that is up and not quarantined, of an operation that is not behind the guard's epoch and whose cell the guard has or can take, a run leads to permission to delete the Pod while its newest work is not done; the other Pods of the Area, previews included, are taken to be on other nodes |
| EarlyDeletions.PreviewOutruns | runner/control.py:972-1002 | A joint run without reopening cancels in which the thread of a preview deletes its Pod while the preview is not terminal |
| EarlyDeletions.ReopenedDeletes | runner/control.py:1352-1361 | A joint run in which a Pod is deleted although a reopening cancel has set its current work back to cancelling |
| EarlyDeletions.AcknowledgedDeletes | runner/control.py:594-603 | A joint run in which a Python operation is harvested, reported and acknowledged, a second cancel sets it back to cancelling without a thread, and its Pod is deleted while it is the current work |
| EarlyDeletions.RestartDeletes | runner/allocation_usage.py:216-225 | A joint run without late or reopening cancels in which an earlier operation of a session is started again and the Pod is deleted while the newest operation is recorded as running and not harvested |
| PodDeletion.ReopenedExactly | runner/control.py:1352-1361 | A cancel makes a Pod deletable whose work is not done if and only if it is of the reopening branch and a file holds permission for that work, and the work is acknowledged, has a thread, is not Python or runs in another Pod, so that no thread starts there |
| AllocationJournal.Journal.AfterRead | runner/allocation_usage.py:342-376 | A snapshot older than the file changes nothing; a lost Pod releases a file with a receipt and marks one without; a Pod that is there is observed, quarantined on contradiction, and otherwise a stop is handed on |
| AllocationJournal.Journal.AllocationHousekeeping | runner/allocation_usage.py:319-376 | A pass visits the next 16 watched Pods after the cursor in order, each exactly as one visit does; each deletion it asks for is of one of them, at most one each, and finds its current work terminal with harvested output |
| AllocationJournal.Journal.Follow | runner/allocation_usage.py:366-376 | Housekeeping hands a stop on exactly when there is a receipt, intent or a deletion under way, or the work is harvested and, for an idle session, the guard has seen it stop; an idle session that runs is left alone |
| AllocationJournal.Journal.InitializeAllocations | runner/allocation_usage.py:39-57 | A restart rebuilds exactly the indexes from the files |
| AllocationEvidence.Scan | runner/allocation_usage.py:44-57 | The startup scan lists unacknowledged, unreleased and incomplete files, no others, in order |
| AllocationEvidence.IndexesUnique | runner/allocation_usage.py:39-57 | Indexes that agree with the files are equal to what a fresh scan builds |
| AllocationEvidence.EvidenceWrittenOnce | runner/allocation_usage.py:99-171 | Between any two moments of any run start and receipt are written once, flags are only set, and a quarantined file is never acknowledged or released later |
| AllocationEvidence.BilledForEver | runner/allocation_usage.py:142-150 | What was ever acknowledged or released keeps one receipt for ever, which covers every container up to the latest finish and not before the start |
| Rotation.LapExactlyOnce | runner/allocation_usage.py:173-185 | Following the cursor to the end visits an identity that stays listed exactly once and none twice, while others come and go |
| Rotation.LapAscends | runner/allocation_usage.py:180-185 | The pages of a lap ascend strictly whatever happens to the index in between |
| Rotation.LapMustEnd | runner/allocation_usage.py:180-185 | A lap over identities from a bounded set has ended once its pages could hold more than the set |
| Rotation.HousekeepingReaches | runner/allocation_usage.py:319-324 | From any cursor the housekeeping passes reach every identity that stays watched within a bounded number of passes |
| Rotation.PassesAreLap | runner/allocation_usage.py:319-324 | The stored cursor continues one lap from pass to pass |
| Rotation.RetriesRotate | runner/node_guard.py:214-219 | n retries over n fixed obligations take them in rotated order from any cursor |
| Rotation.RetriesTakeEachOnce | runner/node_guard.py:214-219 | n retries over n fixed obligations take each exactly once |
| NodeGuard.EpochNeverDecreases | runner/node_guard.py:434-481 | Over all request sequences and crashes an Area's stored epoch never decreases |
| NodeGuard.TombstoneGivesWay | runner/node_guard.py:434-481 | A tombstoned Area becomes live again only by a step that names another container, at a strictly greater epoch or as the handoff of one sandbox |
| NodeGuard.OwedStays | runner/node_guard.py:176-211 | A cleanup obligation stays until the container is cleaned |
| NodeGuard.CleanupConserved | runner/node_guard.py:448-458 | A tombstoned execution's record is replaced only when its container's cleanup is recorded or done, for ever after |
| NodeGuard.DroppedIsCleaned | runner/node_guard.py:214-282 | An obligation leaves the disk only in a step that cleans its container |
| NodeGuard.NodeGuard.DroppedIsAbsent | runner/node_guard.py:247-282 | Every obligation ever dropped was for a container of which the native runtime holds nothing any more |
| NodeGuard.NodeGuard.ReplacedIsOwed | runner/node_guard.py:448-458 | The container of a replaced tombstone is natively absent or its cleanup is still recorded |
| NodeGuard.NodeGuard.SaveRecord | runner/node_guard.py:57-70 | One durable write that follows the Area rules extends the history |
| NodeGuard.NodeGuard.HandoffCleanup | runner/node_guard.py:176-211 | Makes the exact-container obligation durable before the record says so, under failing writes too, and the record is queued exactly if that obligation is there or could be saved |
| NodeGuard.NodeGuard.Handle | runner/node_guard.py:421-481 | The reply is fixed for every record and every answer of the host: a termination of the bound live execution is confirmed exactly if its sandbox is stopped, gone or killed, status tells whether it is stopped, another execution gets through exactly if it supersedes or succeeds the record; a confirmed termination means a dead container and a tombstone; a live record of another execution is replaced if and only if the request supersedes it and its action saves; other Areas and cleaned containers are untouched |
| NodeGuard.LiveRecordReplaced | runner/node_guard.py:474-481 | Two requests whose saves are exactly a live v1 record and then its replacement at a greater epoch; the first container is not known dead |
| NodeGuard.NodeGuard.SettleStopped | runner/node_guard.py:448-454 | A stopped execution gets its tombstone and its cleanup handoff before anything replaces it |
| NodeGuard.NodeGuard.Admit | runner/node_guard.py:465-481 | The fences by epoch, container and protocol: whatever is saved follows the Area rules, and a superseded live record is replaced by the very next save |
| NodeGuard.NodeGuard.Act | runner/node_guard.py:482-673 | Whatever an action saves follows the Area rules: a freeze or a first cell saves exactly the bound record with its deadline; a confirmed answer means a dead container |
| NodeGuard.NodeGuard.Write | runner/node_guard.py:582-640 | A freeze is saved with its deadline exactly if the sandbox is paused or stopped, a first cell with its own; a repeated cell changes nothing |
| NodeGuard.NodeGuard.SaveLimits | runner/node_guard.py:524-579 | The binding is saved only when the observed limits match |
| NodeGuard.NodeGuard.Stop | runner/node_guard.py:589-602 | Termination kills or finds stopped, then saves the tombstone, then hands off cleanup |
| NodeGuard.NodeGuard.RetryCleanup | runner/node_guard.py:214-297 | One retry takes the next obligation and drops it exactly when its area no longer runs the container and the native runtime does not list it or has deleted its stopped remains |
| NodeGuard.NodeGuard.MigrateLegacy | runner/node_guard.py:675-725 | Adopts exactly a tombstone or a valid live record for an Area without one; copies tombstones, moves live records and retires superseded ones |
| Installer.FenceHolds | runner/gvisor_installer.py:176-187 | From the fence to the final chmod, through any crash and retry, the shim is not executable |
| Installer.QuietChanges | runner/gvisor_installer.py:190-273 | On-disk state changes only at the fence itself or behind it with nothing live or launching; fencing and unfencing change no file content |
| Installer.ReturnVerified | runner/gvisor_installer.py:237-273 | A normal return means on disk exactly the archive's files, executable, their receipt, and containerd in format 2 with both runtimes' files for this very root and their registrations; installing again would change nothing |
| Installer.ConfiguredExactly | runner/gvisor_installer.py:116-153 | Nothing is left to change if and only if format, both runtime files for this root and both registrations are exactly right; it is refused if and only if the format is another or a runtime is registered with another file |
| Installer.RootsDiffer | runner/gvisor_installer.py:140-153 | Runtime files for different roots differ |
| Installer.RunKeeps | runner/gvisor_installer.py:237-273 | In every reachable world a receipt is honest about the files, the fence holds where it must, and the plan is on its way |
| Installer.Drain | runner/gvisor_installer.py:190-209 | Terminates within a bound from its deadline; success means that the last two scans were empty |
| Installer.Node.FenceShim | runner/gvisor_installer.py:176-187 | Takes the execute bit off the shim; no data and no other file changes |
| Installer.Node.Replace | runner/gvisor_installer.py:251-259 | Writes exactly the archive's files under the closed fence and the receipt last of all |
| Installer.Node.Configure | runner/gvisor_installer.py:116-153 | Leaves containerd in format 2 with both runtimes' files for this very root and their registrations, and keeps every other registration |
| Installer.Node.Install | runner/gvisor_installer.py:237-273 | Succeeds exactly if the configuration is one to work on, the release is installed or its archive is complete, and nothing is to change or the drain succeeds; then the release is installed with every archive file executable and containerd is configured for this very root; every durable state in between is fenced when files change |
| ResultFrames.BoundedOutput.Add | runner/execution_pod.py:1558-1574 | What is kept of both streams is a prefix of what was offered, within one shared limit |
| ResultFrames.ResultFrameReader.Add | runner/execution_pod.py:1588-1611 | The loop ends because pending bytes shrink, and tracks the whole-stream scan of what came so far |
| ResultFrames.ResultFrameReader.Close | runner/execution_pod.py:1612-1615 | At the end nothing is pending and result and emitted bytes are the scan's |
| ResultFrames.ClosedIsScan | runner/execution_pod.py:1582-1615 | Whatever the chunking, a closed reader has the result and stderr of one scan of the whole stream |
| ResultFrames.ScanRemovesAtMostOneFrame | runner/execution_pod.py:1582-1615 | The emitted bytes are the input with exactly the first valid frame removed, or the input |
| ResultFrames.DrainProcess | runner/execution_pod.py:1618-1677 | For every interleaving of pieces of both streams the result is the scan of stderr and the output is bounded |
| ResultFrames.PrefixUnbordered | runner/sandbox_v2.py:543-546 | The nonce prefix does not overlap itself |
| ResultFrames.FrameRoundTrip | runner/sandbox_v2.py:543-546 | For every stderr without the prefix, every outcome whose frame fits, and any bytes after it, the reader recovers the outcome and returns the other bytes unchanged |
| ResultFrames.FrameRecoveredIffFits | runner/execution_pod.py:1583-1615 | If the prefix occurs nowhere else, the outcome is recovered if and only if prefix and outcome are shorter than 8192 bytes |
| CaptureBarrier.Output.Add | runner/python_session.py:40-57 | A cell's output keeps the first bytes up to its limit and notes truncation |
| CaptureBarrier.TurnKeepsSuffix | runner/python_session.py:74-96 | What one turn of the drain loop leaves pending is a suffix of what it had, shorter than the marker and empty without one or once it is found; the rest is delivered, but for the marker |
| CaptureBarrier.OnlyWhereSent | runner/python_session.py:98-103 | If the 32 random bytes of a marker do not hold the fixed prefix and occur in nothing else written, the marker occurs only where it was sent, overlaps included |
| CaptureBarrier.DescriptorCapture.Drain | runner/python_session.py:74-96 | One turn of the drain thread is the specified turn |
| CaptureBarrier.RunKeeps | runner/python_session.py:74-115 | Every interleaving of writers, drain thread and barriers keeps the barrier and capture invariants |
| CaptureBarrier.CellCapture | runner/python_session.py:98-115 | When end returns, the cell has in order all bytes written from begin's return to end's marker, none from before begin's marker, and no marker; under a limit it keeps a first part of them, and all if nothing is cut |
| CaptureBarrier.BarrierCompletes | runner/python_session.py:98-106 | A barrier is never missed: once its marker is read, the event is set |
| StagedInput.Upload.InputChunk | runner/control.py:496-525 | Accepts a chunk exactly if it repeats what is there or appends at the end; the staged file only grows |
| StagedInput.Upload.CommitInputs | runner/control.py:527-541 | Commits exactly when every manifest file is there with its size and digest |
| StagedInput.AcceptedChunkStays | runner/control.py:496-525 | Every accepted chunk stays a slice of the staged file at its offset |
| StagedInput.Collector.WriteInput | runner/collector.py:129-147 | Writes exactly before publication and within the chunk limit; the file then is the old one, started anew at offset 0, with the data at its offset |
| StagedInput.WrittenExactly | runner/collector.py:129-147 | Written data is found where it was written, what lies before and behind stays, and a gap reads as zeros |
| StagedInput.Collector.Forward | runner/control.py:1237-1248 | Forwarding a file, an empty one too, leaves exactly its bytes in the sandbox whatever earlier attempts left |
| StagedInput.Collector.ForwardAll | runner/control.py:1237-1248 | All files of a manifest with distinct paths arrive with exactly their staged bytes |
| StagedInput.Collector.CheckFiles | runner/collector.py:59-101 | The check passes exactly when the sandbox has the manifest's files within the quota |
| StagedInput.Collector.Hydrate | runner/collector.py:59-101 | Publishes only checked files, once |
| StagedInput.ForwardedIsAccepted | runner/collector.py:59-101 | What was committed and forwarded passes the sandbox's check |
| StagedInput.PublishedIsStaged | runner/control.py:1237-1248 | However many attempts were cut off, what is published is byte for byte what was staged |
| SchemaClosure.UnescapeIsOnePass | scripts/export-bruno-catalog.py:73-82 | The two replacements in order decode a token as one left-to-right pass of section 4 of RFC 6901 |
| SchemaClosure.UnescapeEscape | scripts/export-bruno-catalog.py:73-82 | Decoding undoes encoding for every name |
| SchemaClosure.RefResolves | scripts/export-bruno-catalog.py:98-116 | A reference that names a component schema resolves to exactly the schema of its decoded name |
| SchemaClosure.EveryNameRefers | scripts/export-bruno-catalog.py:98-116 | Every component schema of a document is named by the reference made of its escaped name, which is supported and resolves to that schema |
| SchemaClosure.RefsEverywhere | scripts/export-bruno-catalog.py:101-122 | A value's references are its own, those in the items of an array and those in every other field, at any depth, and no others |
| SchemaClosure.Closure.Visit | scripts/export-bruno-catalog.py:101-122 | A visit terminates on cyclic documents; it succeeds with everything mentioned covered, and fails only on a reachable broken reference |
| SchemaClosure.SchemaContract | scripts/export-bruno-catalog.py:98-124 | Fails exactly when a broken reference is reachable; otherwise the definitions are exactly the reachable schemas |
| SchemaClosure.AllReached | scripts/export-bruno-catalog.py:98-124 | Covered and reachable definitions are exactly the reachable names, each with its own schema |

## Left out

Assumptions of the model:

- One `save` is one atomic durable step; journal I/O errors are not modelled.
- The listing of Pods, the checks and the two saves of `accept` (record and Area file) are one step, and the listing is true. A Python session's Pod is taken to be there, and any operation whose own Pod got its cell serves as the session's first; the session file and its manifest are not modelled.
- The end of a session's Pod is recorded for the operation whose thread ends it; other operations of the Pod then still count as possibly writing.
- The node guard's record is one for each Area and node. It is followed for each Pod by itself, as if the other Pods of the Area, previews included, were on other nodes; on the same node a preview at a greater epoch makes the guard refuse the older operations of the Area too.
- A thread that is under way while an acknowledgement empties its record's request may go on to its end; in the source it may fail sooner.
- A Pod creation has made its Pod when it returns, or never does.
- A read-modify-write of a Space's state file is atomic, and only the controller creates Pods of a Space's or an operation's name.
- SHA-256 is injective where contents follow from digests; JSON decoding is an uninterpreted partial function; UUIDs and times are numbers.
- The native inventory of a node is true, and a container that is absent from it stays absent.
- A gVisor receipt that is on disk before the first installation is honest about the files of its archive.
- The 32 random bytes of a capture marker occur in no other bytes of the pipe and do not contain the marker's fixed prefix; a scan of live sandboxes in the installer is atomic, with a pause that outlasts launches in flight.
- A Pod is first observed through the operation that created it (runner/control.py:695-701), and an observation names a Pod of its operation.
- A Pod's containers are fixed by its spec, and the node guard answers only for live containers that it has not tombstoned.

Not modelled:

- OperationJournal.OneWriter: does not count Live previews as writers, as the source does not; the termination evidence of previews is not claimed. Late cancels are excluded, because with them it is false.
- OperationJournal.HarvestedForEver: is about runs whose cancels do not reopen a harvest, because with them it is false.
- ExecutionPods.RunKeeps: covers one Scratch Space without purge; deleting a Space drops its records and counter.
- ExecutionPods.RunProtects: is about runs whose crashes do not land in an exposed state, because there it is false.
- ExecutionPods.NothingNewBeforeTermination: is about runs whose crashes do not land in a stranded state, and not about commands with a mark and an interruption between their test and their acceptance, because there it is false.
- ExecutionPods.StrandedExactly: does not count commands accepted too early for that other reason; TooEarlyExactly says which they are.
- PodDeletion.DeletedWhenDone: is about the deletions that the journal asks for; NewestWork.OutrunsExactly says which others there are.
- NewestWork.EarlyExactly: is about runs without reopening cancels, for which PodDeletion.ReopenedExactly says what happens.
- NewestWork.DisplacesDeletes: does not follow a displacing start in a Pod that is down; EarlyExactly covers every deletion after those too.
- RequestHandlers.Runner.Acknowledge: lets nothing in between its two locked sections (runner/control.py:556-569, 578-592); in OperationJournal they are the steps Vouch and Acknowledge, and any others can come between them, stale cancels that start a thread included. The stored files that it deletes are not modelled.
- AllocationJournal.Journal.AllocationHousekeeping: lets no other request in between the two locked sections of a visit; BeforeRead and AfterRead state each section alone.
- AllocationJournal.Journal.ObserveAllocation: takes the record to be that of an operation of the observed Pod.
- RequestHandlers.Runner.CommitInputs: takes the completeness of the files as a flag; StagedInput.Upload.CommitInputs says when they are complete.
- RequestHandlers.Runner.Recover: leaves the replayed report of harvested output to the Report step of PodDeletion; when it fails the process ends, and what it had tracked until then is not followed.
- SpaceController.Controller.SubmitCommand: does not model request validation nor the phase of the Pod, and lets no worker in between its sections; ExecutionPods does.
- SpaceController.Controller.EnsurePod: does not model capacity and settings mismatches; admission is the RecordGuard and Admit steps of ExecutionPods.
- AllocationJournal.Journal.InitializeAllocations: does not model the check of the journal's instance identity.
- Installer.ReturnVerified: claims on-disk state only; containerd's in-memory configuration after a crash before its restart is not modelled.
- AllocationJournal.Journal.CloseAllocation: does not model admission probes, which are deleted without a receipt, nor diagnostics and attempt counters.
- NodeGuard.NodeGuard.Act: does not model the contents of exports and logs, nor that the watchdog deadline survives a replayed cell.
- RequestHandlers.Runner.Activity: does not report the time of the last completion.
- Reconcile threads are steps of a machine, not methods: their polling, deadlines and output collection are reduced to what they save and ask for.
- HTTP routing, kubectl and subprocess calls, sockets and file descriptors: environment.
- Manifests, network policies, admission probes and host evidence: large literals with little to prove.
- Python sessions' socket protocol, system-tree reset and diff, idle monitor and viewers of Execution Pods.
- The Bruno catalogue beyond the schema closure, licensing checks and evaluation scripts: easier members only.
