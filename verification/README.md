# The crash-safe VM operation protocol of the portal, verified in Dafny

The portal turns user requests into rows of `operations` and `virtual_machines`; a worker carries the rows out
against a Proxmox cluster. Each worker pass commits a write-ahead marker, calls the provider outside any
transaction and commits the result in a second transaction. Lost responses, crashes and slow workers are settled by
polling a saved task id, by reading the power state, by backing off or by parking. This project models that
machinery and proves what it keeps in every run.

## How the model is layered

* **Rows and strings.** `Phases` gives every row position a typed `Stage` and the phase string the code stores for
  it; the prefix, suffix and replace operations of the services are proved on those strings, and a row shows at most
  one stage. `Rows` has the stored rows and the `Operation` and `VirtualMachine` objects.
* **Services and worker.** `OperationServices` and `Worker` are imperative: methods that mutate those objects and a
  `Database`, branch by branch like the source, with an exception as the out-parameter `raised`. Each is proved to
  realise a typed transition of `Transitions` (`Mark`, `Settle`, `Lose`, `Reconcile`, `Poll`), and each transaction to
  replace both rows or neither. `Drain.RunOnce` is `run_once` as a whole.
* **The system.** `Protocol` puts both tables, the provider (power state, locks, configuration, disk, tasks), every
  mutating call ever made with the request it carries, requests between their checks and their insert, and a clock into
  one state, with an event
  for each thing that can happen: request checks and inserts, a worker's first transaction, a call reaching the
  provider, a result or a failure being stored, a crash, provider tasks applying, ending or failing, locks, foreign
  resources, time. A `Run` is any sequence of events; a response is lost when its worker never stores it.
  `Steps` proves that the worker's transactions on stored rows are these events, and that what the worker sends is the
  call the protocol records.
* **Theorems over all runs.** `Invariants`, `Agreement`, `Cloning`, `Evidence`, `Grace`, `Safety`, `InFlight`, `Rest`,
  `StaleReads`, `Misfiling`, `Aftermath`, `Requests`, `Throttle` and `Queue`; `Witness` has runs from the initial state that reach
  what they speak of. `Progression` is the other direction, in plain stages, statuses and times: no due row is
  overlooked, a visible effect is recognised, an ended task ends its step, and a stored result moves its operation on.
* **Around it.** `Admission` (requests, as methods over the stored rows), `OneShot` (the older handlers and their
  simulation), `TaskIds` and `Fake` (the in-memory provider), `Drain` (how many runs empty the queue) and
  `HttpAdapter` (the guards of the real adapter over traces, and that `Protocol.Attempt` is what they do).

## What the proofs found

* **A late reboot result can be filed under the wrong command.** `finish_lifecycle_dispatch` is not told which command it
  finishes. If a worker returns from a reboot's shutdown call after the grace, and another has already confirmed the
  shutdown and marked the start, the shutdown task is stored as the start task and its success as the start's.
  `Misfiling.LateRebootFails` builds that run from any state that agrees with the provider and
  `Witness.LateRebootHappens` from the initial state; `Misfiling.FinishAgreesExactly` shows that a stored result keeps
  agreement if and only if the operation still waits at the command the worker sent. What a user sees of it afterwards is
  decided by `Aftermath.MisfiledRowHolds`: until the VM is sent another command, the reboot waits or has succeeded, and
  once it has, the row that says running is right if and only if the start call has taken effect. `Rest.TimelyAgreement`
  shows that none of this can happen when calls are settled in time.
* **A row can be pending while its call is in flight.** A row at the mark of a call in flight becomes pending exactly by a
  pass that reads the power state proving the command, when the command has a successor (`InFlight.PendingExactly`); over
  a standing dispatch marker such a pass comes after the grace. In whole runs it is past the command exactly when such a
  pass came (`InFlight.PastExactly`), and pending exactly when some event completed a step with a successor and no pass
  has come over the row since (`InFlight.PendingInRuns`). It concerns the clone of a create and the shutdown of a reboot,
  and both fail (`InFlight.PendingWhileInFlight`), in runs from the initial state (`Witness.ClonePendingInFlight`,
  `Witness.ShutdownPendingInFlight`).
* **A shutdown or stop accepts a late task after reconciliation,** because its finish branch does not look at the phase.
  That is harmless for agreement: the operation has only one command (`Safety.FinishCommitsWhen`).
* **A refused command is never sent again.** A start, power-off or delete that meets a locked resource leaves its operation
  in a reconcile phase for good while only the portal acts, and the VM refuses every later request
  (`Rest.RefusedForever`). The exception is a VM into whose operations a reboot result was misfiled: there a power
  state that was wrong before can end a refused operation.
* **A stored VMID stops a worker.** Rows of deleted VMs keep their VMID under a unique index (`Queue.StoredVmidStaysTaken`),
  and a VMID chosen for one create is free at the provider until its clone starts. If the provider offers a stored VMID to
  the oldest waiting create, its transaction fails (`Queue.TakenOfferFails`), its time stamp stays, and the same worker
  selects it again before everything else (`Queue.TakenVmidBlocksQueue`); `Witness.TakenVmidHappens` reaches such a state
  with two creates. With several workers the queue query skips the row while another
  worker's failing transaction holds it, so a second worker can get past it in that moment and only then. It is the only
  way a pass can fail apart from the provider having no target to offer (`Queue.OnlyPlacementFails`).

## Model

| member | source | states |
|---|---|---|
| Phases.RowDeterminesStage | portal/app/operations/services.py:202-345 | status, phase string and task id of a row determine the step it is at: no two positions of one kind share a spelling |
| Phases.PhaseFitsColumn | portal/app/operations/models.py:24 | every phase string fits the 32-character column |
| Phases.BackoffPrefix | portal/app/workers/operation_worker.py:117-124 | adding and removing the poll-backoff prefix restores the polled phase, and the prefix never nests |
| Phases.DispatchToReconcile | portal/app/operations/services.py:816-819 | the replace turns every dispatch marker into its own reconcile phase and keeps a reconcile phase |
| Phases.MarkerToReview | portal/app/operations/services.py:338-341 | the two chained replaces park an unverifiable configure or resize from either marker |
| Phases.CreateSuffixes | portal/app/operations/services.py:318-338 | the suffix tests tell the four create steps apart on both kinds of marker |
| Rows.ShownOpIsUnique | portal/app/operations/models.py:17-57 | a stored row shows at most one typed operation |
| Rows.UsableIsOwned | portal/app/operations/services.py:353-358 | a VM's SSH key is usable exactly when it is stored and belongs to the VM's owner; a VM without one has none |
| OperationServices.PrepareCreateVmDispatch | portal/app/operations/services.py:202-223 | succeeds exactly on a pending create with a known phase, a saved placement and, before the clone, configure and resize steps, a stored SSH key of the owner; it then writes the marker of that step, counts it and hands out the saved target and, field by field, the VM's uuid, image, vCPUs, memory, storage and key text |
| OperationServices.FinishCreateVmDispatch | portal/app/operations/services.py:226-292 | realises `Settle`: only the marker of the remembered step takes the result, a clone or task confirms, waits or stays unknown |
| OperationServices.ReconcileCreateVmOperation | portal/app/operations/services.py:295-345 | realises `Reconcile`: clone and start are confirmed only by the observed state, configure and resize are parked |
| OperationServices.RefreshCreateVmOperation | portal/app/operations/services.py:106-175 | realises `Poll` on a create: success moves to the next step, failure fails operation and VM |
| OperationServices.PrepareStartVmDispatch | portal/app/operations/services.py:552-570 | realises `Mark` for a start |
| OperationServices.FinishStartVmDispatch | portal/app/operations/services.py:573-598 | realises `Settle` for a start: only its own standing marker takes the result |
| OperationServices.ReconcileStartVmOperation | portal/app/operations/services.py:601-632 | realises `Reconcile` for a start: confirmed only by running and unlocked |
| OperationServices.ProcessStartVmOperation | portal/app/operations/services.py:496-549 | realises `Poll` for a start |
| OperationServices.PrepareLifecycleDispatch | portal/app/operations/services.py:650-683 | realises `Mark` for shutdown, stop, reboot and delete, and puts the VM into deleting for a delete |
| OperationServices.FinishLifecycleDispatch | portal/app/operations/services.py:686-759 | realises `Settle` for the lifecycle kinds, whatever command the result came from |
| OperationServices.ReconcileLifecycleOperation | portal/app/operations/services.py:762-819 | realises `Reconcile`: each marker is confirmed only by the power state that proves it |
| OperationServices.PollPowerOff | portal/app/operations/services.py:864-891 | realises `Poll` for shutdown and stop |
| OperationServices.PollReboot | portal/app/operations/services.py:943-976 | realises `Poll` for a reboot: the shutdown half is followed by the start half |
| OperationServices.PollDelete | portal/app/operations/services.py:1037-1066 | realises `Poll` for a delete: a failed task keeps the VM deleting, so its quota is not freed |
| Worker.SelectableShown | portal/app/workers/operation_worker.py:47-76 | the SQL predicate on phase patterns, status, task id and age selects exactly the stages that are due |
| Worker.Database.SelectNext | portal/app/workers/operation_worker.py:77-85 | returns the oldest selectable row no other worker has locked, or none if there is none |
| Worker.FirstTransaction | portal/app/workers/operation_worker.py:41-213 | for every row it can select: commits exactly the typed pass or rolls back both rows, and hands out the command, the saved target and the VM's own request, each field named, of the marker it committed |
| Worker.HandsOwnRequest | portal/app/operations/services.py:348-373 | what a pass hands over for a VM with a usable key is that VM's own request in every field, and no request with a start or lifecycle command |
| Worker.FinishTransaction | portal/app/workers/operation_worker.py:246-251 | stores a returned result as `Settle` says, or changes nothing |
| Worker.FailureTransaction | portal/app/workers/operation_worker.py:229-243 | stores that an outcome is unknown as `Lose` says, or changes nothing |
| Steps.ServeRow | portal/app/workers/operation_worker.py:41-213 | on the stored tables of any protocol state the first transaction is the protocol's pass: it sends exactly when the pass records a call, and what it hands over is that call's command, target and request |
| Steps.StoreResult | portal/app/workers/operation_worker.py:246-251 | the finish transaction on what a recorded call returned is the protocol's finish of that call |
| Steps.StoreFailure | portal/app/workers/operation_worker.py:229-243 | the failure transaction is the protocol's failure of that call |
| Progression.DueExactly | portal/app/workers/operation_worker.py:47-76 | a queued row and a polled task are due at once, an unsure or backed-off row from 10 s, a dispatched row from 5 min on and not before, a parked or finished row never |
| Progression.NoRowForgotten | portal/app/workers/operation_worker.py:47-76 | every active row that is not parked is selected by the queue query 5 min after its last change at the latest |
| Progression.StoredRowDue | portal/app/workers/operation_worker.py:54-75 | the same exact times for the query over stored rows, per stage |
| Progression.PlacementIsSaved | portal/app/operations/services.py:46-58 | a new create that is offered a target with an unstored VMID saves exactly that target, and nothing else changes |
| Progression.QueuedIsSent | portal/app/operations/services.py:202-223 | a queued step of a placed VM is marked and sent by the next pass, once, with the VM's own request and placement |
| Progression.SentIsTaken | portal/app/proxmox/http_adapter.py:89-498 | in an agreed state a call meets the resource its command expects: unless that is locked or its disk too large, the provider accepts it, as a task or at once |
| Progression.TaskMovesOn | portal/app/operations/services.py:282-287 | a task stored under the call's own marker makes the operation wait for that task |
| Progression.RefusedExactly | portal/app/operations/services.py:240-281 | under a dispatch marker a result is refused exactly when it is not the command's own type, its state does not go with its task, or its task targets another placement |
| Progression.CompletionMovesOn | portal/app/operations/services.py:226-292 | a completion stored under the call's own marker moves the operation to the next step or its end, with the VM status that belongs to it |
| Progression.InProgressMovesOn | portal/app/operations/services.py:247-254 | "in progress" on a clone or delete leaves the operation to reconciliation with `provider_outcome_unknown` |
| Progression.FailureMovesOn | portal/app/workers/operation_worker.py:236-243 | an exception leaves it to reconciliation with `provider_submit_unknown`, and the VM as it was |
| Progression.CloneRecognised | portal/app/operations/services.py:323-328 | a due look at a clone that is there, stopped and unlocked moves the create to configure |
| Progression.StartRecognised | portal/app/operations/services.py:618-632 | a due look at a running unlocked VM ends a create, a start or a reboot's start half as succeeded and running |
| Progression.ShutdownRecognised | portal/app/operations/services.py:796-806 | a due look at a VM that is off and unlocked ends a shutdown and turns a reboot to its start half |
| Progression.StopRecognised | portal/app/operations/services.py:807-814 | a due look at a VM that is off and unlocked ends a stop |
| Progression.DeleteRecognised | portal/app/operations/services.py:787-792 | a due look at a VMID without a resource ends a delete as succeeded and deleted |
| Progression.UnverifiableParks | portal/app/operations/services.py:336-345 | a configure or resize of unknown outcome is parked, whatever the power state |
| Progression.UnprovenWaits | portal/app/operations/services.py:816-819 | any other power state, or none, keeps the command in its reconcile phase with the error code that says which |
| Progression.SucceededTaskMovesOn | portal/app/operations/services.py:133-175 | polling a task that succeeded moves the operation past its command, with the VM status that belongs to it |
| Progression.FailedTaskEnds | portal/app/operations/services.py:864-891 | polling a task that failed ends the operation with the task's error code or `provider_task_failed`; a create fails its VM, a delete keeps it deleting, others leave it; which kinds keep a backed-off phase |
| Progression.UnfinishedTaskWaits | portal/app/operations/services.py:943-976 | an unfinished or unanswered poll keeps waiting for the same task, backing off exactly when there was no answer |
| Progression.RunErrors | portal/app/operations/services.py:226-345 | in every run the error column fits the stage: none while queued, dispatched or succeeded, one of three codes while unsure, a code once failed |
| Evolution.PassEvolves | portal/app/workers/operation_worker.py:87-206 | every pass keeps the row shape, the fixed columns and the placement, never forgets a marker, and leaves the VM in a status its operation allows |
| Evolution.SettleEvolves | portal/app/operations/services.py:226-292 | the same for the finish and failure transactions |
| Evolution.PassProgress | portal/app/workers/operation_worker.py:87-206 | every committed pass saves a placement, purely waits, or lowers the rank, and adds to `attempts` exactly when it sends |
| Evolution.SettleProgress | portal/app/operations/services.py:686-759 | every committed finish or failure lowers the rank and sends nothing |
| Evolution.AttemptsBound | portal/app/operations/services.py:218-221 | `attempts` is at most 4 for a create, 2 for a reboot and 1 otherwise, and equals that on success |
| Invariants.RunInv | portal/app/workers/operation_worker.py:37-331 | in every run: row shapes, one active operation per VM, distinct VMIDs, one call per operation and command to the saved placement, a call for every marker |
| Safety.AtMostOnce | portal/app/workers/operation_worker.py:208-329 | in every run no operation makes two mutating calls for one command; each goes to the saved placement with the VM's own request; `attempts` counts the calls, and a succeeded operation made each of its calls |
| Safety.OneActivePerVm | portal/app/virtual_machines/services.py:221-247 | in every run at most one operation per VM is pending or processing, and while it is, the VM has the status that kind of operation allows |
| Safety.RowShape | portal/app/workers/operation_worker.py:54-75 | in every run: pending and succeeded rows have no task, failed rows have one, a processing row has one exactly when its phase is not a dispatch, reconcile or needs_review phase, and phases fit their column |
| Safety.InFlightHasRow | portal/app/workers/operation_worker.py:31-33 | while a call is in flight within its grace, its committed row is not pending, and but for a reboot's start half it shows that marker with the call's time |
| InFlight.MarkerLostExactly | portal/app/operations/services.py:686-733 | the marker of a call that stays in flight goes away exactly by a pass over its row, which comes after the grace, or by an outcome of the shutdown half stored over a reboot's start half |
| InFlight.PendingExactly | portal/app/workers/operation_worker.py:126-134 | a row at the dispatch or reconcile mark of a call in flight becomes pending exactly by a pass that reads the power state proving the command, when the command has a successor; from the dispatch mark only after the grace |
| InFlight.ProvableWithNext | portal/app/operations/services.py:323-328 | the commands with a successor that a power state can prove are a create's clone and a reboot's shutdown |
| InFlight.PastExactly | portal/app/operations/services.py:295-345 | in every run a row is past the command of a call in flight exactly when some pass of the run confirmed it by the power state meanwhile |
| InFlight.PendingExactlySince | portal/app/operations/services.py:202-345 | in every run an operation that has made a call is pending exactly when some event completed a step of it that has a successor (by power state, task or result) and no pass has come over its row since |
| InFlight.PendingInRuns | portal/app/operations/services.py:787-814 | in every run the same decides whether a row is pending while its call is in flight; and it is pending only when the call's command has a successor and a pass confirmed it by the power state meanwhile |
| InFlight.PendingWhileInFlight | portal/app/operations/services.py:323-328 | the failing step for both: a due pass that finds the clone finished, or the VM shut down, makes the row pending while its first worker still waits |
| Safety.FinishCommitsWhen | portal/app/operations/services.py:226-236 | exactly when a late result changes a row; for create and start only under the marker of that very dispatch, which is the only call with that operation and command |
| Safety.FailCommitsWhen | portal/app/workers/operation_worker.py:236-240 | exactly when a late failure changes a row; for create and start never after reconciliation |
| Grace.RunContinues | portal/app/workers/operation_worker.py:215-329 | calls are never forgotten, an outcome once there stays, a task only moves forward |
| Grace.RunTimed | portal/app/workers/operation_worker.py:33 | in every run a standing marker carries its call's time and is untouched while the grace lasts |
| Agreement.RunAgreed | portal/app/operations/services.py:295-345 | in every run, on VMs without a misfiled result: an operation moves past a command only after its effect is real, waits for its own call's task, and the provider is in the state before or after the current command accordingly |
| Agreement.ProofIsReal | portal/app/operations/services.py:787-814 | a power state that confirms a command is only ever read after that command took effect |
| Agreement.StalePassAgreed | portal/app/workers/operation_worker.py:116-134 | a pass may commit on a read made earlier, as long as its locked rows are unchanged |
| Cloning.RunCloning | portal/app/proxmox/http_adapter.py:105-131 | in every run a resource under clone belongs to a clone task of its VM that is still running |
| Cloning.NoCloneAtRest | portal/app/operations/services.py:751-755 | a VM at rest without a misfiled result has no resource under clone |
| StaleReads.AgreementWithStaleReads | portal/app/workers/operation_worker.py:116-206 | in every run whose passes commit on old reads: at most one call per command, one active operation per VM, and agreement at rest |
| StaleReads.TimelyAgreementWithStaleReads | portal/app/workers/operation_worker.py:31-33 | in such runs, when every call is settled within the grace, every VM at rest is as its row says |
| StaleReads.EvidenceWithStaleReads | portal/app/operations/services.py:106-175 | in such runs too a succeeded create has its evidence |
| Rest.AgreementAtRest | portal/app/operations/services.py:496-819 | in every run a VM with no active operation and no misfiled result is running, stopped or, when deleted, has no resource at all, as its row says |
| Rest.TimelyAgreement | portal/app/workers/operation_worker.py:31-33 | when every call is settled within the grace this holds of all VMs at rest |
| Rest.LockedRefuses | portal/app/proxmox/http_adapter.py:290-309 | a locked or foreign resource refuses every command and stays as it is |
| Rest.RefusedForever | portal/app/operations/services.py:816-819 | an operation whose command was refused never ends, whatever happens later, and its VM accepts no further request, unless a reboot result is misfiled into an operation of that VM |
| Misfiling.FinishAgreesExactly | portal/app/operations/services.py:686-759 | a stored result keeps row and provider in agreement if and only if the operation still waits at the command that was sent; otherwise it is a reboot |
| Misfiling.LateRebootFails | portal/app/operations/services.py:720-733 | from every agreeing state with an unlocked running VM at rest, a run that ends with a succeeded reboot, a row that says running and a stopped VM |
| Aftermath.MisfiledRowHolds | portal/app/operations/services.py:713-733 | after a misfiled result, at every later moment until another command is sent for the VM: the reboot waits or has succeeded, and once it has, the row says running and is right if and only if the start call has taken effect |
| Aftermath.MisfiledSucceeds | portal/app/operations/services.py:943-970 | and it does succeed: once the shutdown task has ended, the next answered poll ends the reboot as succeeded and leaves the VM at rest, started or not |
| Evidence.SucceededCreateHasEvidence | portal/app/operations/services.py:106-175 | in every run a succeeded create was cloned, configured with this VM's own request, sized to its disk and started, in that order, and its resource carries that configuration and disk |
| Witness.CreateRuns | portal/app/workers/operation_worker.py:37-331 | from the initial state every request that fits its plan can be brought to a running VM at rest |
| Witness.LostResponseIsReconciled | portal/app/workers/operation_worker.py:126-134 | from the initial state, for every request that fits its plan, a run in which the response to the start call is never stored and the power state ends the create as succeeded and running |
| Witness.LateRebootHappens | portal/app/operations/services.py:720-733 | from the initial state, for every such request, a run to a running VM at rest and a continuation after which a succeeded reboot has left it stopped under a row that says running |
| Witness.ClonePendingInFlight | portal/app/operations/services.py:323-328 | from the initial state, a run after which a create is pending while its first worker still waits for the clone call |
| Witness.ShutdownPendingInFlight | portal/app/operations/services.py:800-805 | from the initial state, the same for the shutdown half of a reboot |
| Witness.TakenVmidHappens | portal/app/proxmox/http_adapter.py:49-58 | from the initial state, a run with two creates to a state whose oldest row is offered the first one's VMID, still unused at the provider, and a pass that fails for it |
| Requests.QuotaSafety | portal/app/virtual_machines/services.py:158-174 | in every run each user's consuming VMs stay within the plan in count, vCPU, memory and storage |
| Requests.RowUsage | portal/app/compute/services.py:9-16 | a row adds 1 VM, its vCPUs, memory and storage to its owner's usage exactly in the six consuming statuses, and nothing to anyone else's |
| Requests.EndingReleases | portal/app/compute/services.py:43-73 | any event that ends a delete as succeeded or a create as failed lowers its owner's usage by exactly that VM's request, and nobody else's |
| Requests.EndingMakesRoom | portal/app/virtual_machines/services.py:158-174 | and then a create of that owner that asks for no more than the VM had is admitted |
| Requests.RunExtends | portal/app/compute/services.py:9-16 | rows are never removed, keep their request, owner, key and placement, and a failed or deleted VM never consumes again |
| Requests.KeyIsForGood | portal/app/operations/models.py:54-57 | an idempotency key names one operation, kind, VM, owner and request for good |
| Requests.UsedKeyAddsNothing | portal/app/virtual_machines/services.py:102-110 | a used key admits no request, and the loser of a race for it adds neither a VM nor an operation |
| Requests.RunIdentified | portal/app/virtual_machines/services.py:74-101 | in every run keys are unique, every VM has exactly one create operation, and its SSH key is its owner's |
| Admission.ExistingVmForCreateRequest | portal/app/virtual_machines/services.py:115-155 | none exactly when the key is free; the VM exactly when key, owner and request match; otherwise which error |
| Admission.UserComputeUsage | portal/app/compute/services.py:43-73 | the stored rows sum to the user's usage over the consuming statuses |
| Admission.ValidateVmQuota | portal/app/virtual_machines/services.py:158-174 | no error exactly when the enlarged usage is within the plan in all four measures |
| Admission.CheckVmCreate | portal/app/virtual_machines/services.py:19-72 | admits exactly the requests the protocol may check in; replays before any quota is looked at; and exactly which error otherwise, in the order of the checks |
| Admission.InsertVmCreate | portal/app/virtual_machines/services.py:74-112 | adds VM and operation, or neither when the key was taken meanwhile, and then answers by a second lookup |
| Admission.CheckVmOperation | portal/app/virtual_machines/services.py:177-231 | admits exactly the requests the protocol may check in: own VM, free key, no active operation, allowed status; which error otherwise |
| Admission.InsertVmOperation | portal/app/virtual_machines/services.py:233-264 | adds the operation, or nothing when the key was taken meanwhile, and then answers with the same request's operation or an error |
| Admission.OwnedKeysUsable | portal/app/operations/services.py:348-373 | in every reachable state the worker finds a usable SSH key for every VM |
| Throttle.ReadsSpaced | portal/app/workers/operation_worker.py:61-68 | in every run two reads of an operation that waits in a reconcile or backoff phase are at least the delay apart |
| Throttle.ReadsPerWindow | portal/app/workers/operation_worker.py:34 | at most 1 + T / 10 s such reads fall into a window of length T |
| Throttle.MarkerUndisturbed | portal/app/workers/operation_worker.py:57-60 | a dispatch marker is never reconciled before its grace is over |
| Throttle.ParkedForever | portal/app/operations/services.py:336-343 | a needs_review row is never selected again and never changes |
| Queue.OnlyPlacementFails | portal/app/workers/operation_worker.py:96-114 | every selectable row can be handled, and a pass fails exactly when it needs a placement and is offered none or a stored VMID |
| Queue.NoStuckRow | portal/app/workers/operation_worker.py:136-206 | in every run no selectable row runs into an unsupported phase, type or a missing placement |
| Queue.TakenOfferFails | portal/app/operations/services.py:46-51 | a create without a placement can be served at any time, and served with a stored VMID it leaves tables and calls as they were |
| Queue.StoredVmidStaysTaken | portal/app/virtual_machines/models.py:43-46 | a VMID once stored stays stored whatever happens to its VM, deletion included, so an offer of it to another create is always a stored one |
| Queue.TakenVmidBlocksQueue | portal/app/virtual_machines/models.py:43-46 | as long as each pass serves the oldest due row and the oldest waiting create is offered stored VMIDs, no operation moves at all |
| OneShot.StartCreate | portal/app/operations/services.py:18-103 | raises on every row that is not ready to clone, saves a target and nothing else on the first pass, and stores on the second what `Direct` says |
| OneShot.StartConfigure | portal/app/operations/services.py:376-411 | the one-shot configure handler stores what `Direct` says |
| OneShot.StartResize | portal/app/operations/services.py:414-452 | the one-shot resize handler stores what `Direct` says |
| OneShot.StartInitial | portal/app/operations/services.py:455-493 | the one-shot first start stores what `Direct` says |
| OneShot.PowerOff | portal/app/operations/services.py:835-862 | the one-shot power-off stores what `Direct` says |
| OneShot.RebootStep | portal/app/operations/services.py:910-941 | the one-shot reboot half stores what `Direct` says |
| OneShot.Delete | portal/app/operations/services.py:992-1035 | the one-shot delete stores what `Direct` says |
| OneShot.ProtocolSimulatesOneShot | portal/app/operations/services.py:178-199 | when calls return and are not in progress, the two-transaction protocol sends the same commands in the same order as the one-shot handlers and has the same status, step, task and VM row after every turn |
| OneShot.InProgressParts | portal/app/operations/services.py:73-81 | while the provider says "in progress" the one-shot handler sends again at every turn and the protocol has sent once |
| TaskIds.UuidRoundTrip | portal/app/proxmox/fake.py:99-104 | the parser reads back every UUID from its text |
| TaskIds.MintedIsAccepted | portal/app/proxmox/fake.py:72-115 | every minted task id, for any UUID and kind, is accepted without memory for that VM's VMID and node only |
| TaskIds.VmidRange | portal/app/proxmox/fake.py:26-30 | a derived VMID lies between 100000 and 899999999 |
| TaskIds.TaskTextIsUnique | portal/app/proxmox/fake.py:55-59 | a task id names one kind and one VM |
| Fake.FakeProxmoxAdapter.CloneVm | portal/app/proxmox/fake.py:42-70 | performs a clone at the VM's own VMID only |
| Fake.FakeProxmoxAdapter.DeleteVm | portal/app/proxmox/fake.py:244-270 | performs a delete once, and reports it done afterwards |
| Fake.FakeProxmoxAdapter.GetTaskStatus | portal/app/proxmox/fake.py:72-115 | a remembered status, or the verdict of the stateless parser |
| Fake.FakeProxmoxAdapter.GetVmPowerState | portal/app/proxmox/fake.py:223-242 | reads the VM's state at its own VMID and node, and refuses any other |
| Fake.DeleteTwice | portal/app/proxmox/fake.py:257-258 | a second delete changes nothing and reports completion |
| Fake.CallShowsInReads | portal/app/proxmox/fake.py:133-242 | a call changes what is read of its own VM as the command intends and of no other; a deleted VMID reads as missing for good |
| Fake.MintedTaskPolls | portal/app/proxmox/fake.py:72-115 | every returned task polls as succeeded, also after a restart |
| Drain.RunOnce | portal/app/workers/operation_worker.py:37-331 | a whole run on objects: it serves the oldest due row by marking, calling and storing, or reports that nothing is due, and keeps what the next run needs |
| Drain.RunUntilIdle | portal/app/workers/operation_worker.py:334-350 | repeated runs from fresh operations on VMs with distinct VMIDs end after exactly the sum of the runs they take, with every stored row succeeded and nothing due |
| Drain.Drained | portal/app/workers/operation_worker.py:334-350 | from any fresh operations on VMs with distinct VMIDs, whatever rows are picked and whenever the provider restarts, exactly 8 runs per create, 4 per reboot and 2 per other operation lead to all succeeded, and then nothing is due |
| HttpAdapter.OneOwner | portal/app/proxmox/http_adapter.py:45-47 | a resource belongs to at most one portal VM |
| HttpAdapter.CarriesPlain | portal/app/proxmox/http_adapter.py:60-86 | a resource is a VM's own exactly by type "qemu", name "npd-" and the uuid, the portal's pool and the saved node |
| HttpAdapter.HttpProxmoxAdapter.FindOwnedVmResource | portal/app/proxmox/http_adapter.py:60-86 | finds the resource exactly when type, name, pool and node are this VM's |
| HttpAdapter.HttpProxmoxAdapter.CloneVm | portal/app/proxmox/http_adapter.py:89-140 | sends a clone only into an empty VMID, and answers in progress or done for its own resource |
| HttpAdapter.HttpProxmoxAdapter.ConfigureVm | portal/app/proxmox/http_adapter.py:182-228 | sends this VM's own settings to its own unlocked resource only |
| HttpAdapter.HttpProxmoxAdapter.ResizeVmDisk | portal/app/proxmox/http_adapter.py:231-288 | sends a resize only to grow the own unlocked disk, and is done at the exact size |
| HttpAdapter.HttpProxmoxAdapter.StartVm | portal/app/proxmox/http_adapter.py:290-325 | starts only the own stopped resource without a lock |
| HttpAdapter.HttpProxmoxAdapter.ShutdownVm | portal/app/proxmox/http_adapter.py:400-425 | asks only the own running unlocked resource to shut down, and is done when it is stopped |
| HttpAdapter.HttpProxmoxAdapter.StopVm | portal/app/proxmox/http_adapter.py:427-452 | cuts the power of the own running unlocked resource only, and is done when it is stopped |
| HttpAdapter.HttpProxmoxAdapter.DeleteVm | portal/app/proxmox/http_adapter.py:454-498 | deletes only the own stopped unlocked resource, and answers in progress or done otherwise |
| HttpAdapter.HttpProxmoxAdapter.GetVmPowerState | portal/app/proxmox/http_adapter.py:364-398 | missing exactly when the VMID is empty, a state exactly for the own resource, locked by either lock field |
| HttpAdapter.HttpProxmoxAdapter.GetTaskStatus | portal/app/proxmox/http_adapter.py:142-179 | success only for the asked task, stopped with exit status OK; an unreadable reply is never a failure of the task |
| HttpAdapter.ForeignUntouched | portal/app/proxmox/http_adapter.py:60-86 | over any trace of calls a resource without the called VMs' type, name, pool and node is left exactly as it was |
| HttpAdapter.ClonesConserved | portal/app/proxmox/http_adapter.py:105-131 | over any trace what is at a VMID is what was there plus clones minus removals, so without a removal repeated clones create at most one VM |
| HttpAdapter.DeleteOnlyStopped | portal/app/proxmox/http_adapter.py:454-485 | a resource only disappears by a delete call for its own VM while it is stopped and unlocked |
| HttpAdapter.DisksNeverShrink | portal/app/proxmox/http_adapter.py:267-281 | over any trace no disk shrinks |
| HttpAdapter.ResizeIsIdempotent | portal/app/proxmox/http_adapter.py:267-274 | at the requested GB times 1024^3 a resize sends nothing, and reports completion when its reads succeed |
| HttpAdapter.OneOutcome | portal/app/proxmox/http_adapter.py:89-498 | a call may send one request at most, answer in one way at most, and never both |
| HttpAdapter.GuardsAreAttempt | portal/app/proxmox/http_adapter.py:89-498 | the protocol's provider refuses, answers and accepts commands exactly as these guards do, and never sends when it answers |
| HttpAdapter.AcceptedIsResult | portal/app/proxmox/http_adapter.py:315-324 | what the adapter returns for an accepted request is the result the protocol stores for that call: a task with the reply's id at the call's node and VMID, or completion for a configure accepted without one |
| HttpAdapter.PowerIsPowerRead | portal/app/proxmox/http_adapter.py:364-398 | a power read with successful reads is the protocol's power read |
| HttpAdapter.TakeIsChange | portal/app/proxmox/http_adapter.py:119-131 | what a sent request makes of the cluster is what the protocol makes of its machines |
| HttpAdapter.TakePlain | portal/app/proxmox/http_adapter.py:119-131 | field by field: a clone is a locked, stopped, named resource in the pool, a configure stores its settings with key and tags, a resize the size, a power request the state |
| HttpAdapter.CloneDoneIsChange | portal/app/proxmox/http_adapter.py:111-117 | the cluster releasing the clone lock is the protocol's clone task being carried out |

## Left out

- Provider: a task is applied in one step and a failed task leaves the resource as it was (a failed clone leaves none);
  only the portal changes the power state or configuration of a portal VM. Locks, time, and the coming and going of
  foreign resources are free.
- Protocol.Attempt: the adapter reads the resource and then sends its request, here in one step; what changes at the
  provider between the two, a lock or a foreign resource taking the VMID, is not modelled.
- TaskIds.ParseUuid: reads ASCII text without colons as Python's `UUID` does, with its braces, dashes, white space, sign,
  "0x" prefix and underscores; digits and white space beyond ASCII are not modelled.
- Protocol.Do: a pass reads and commits in one step; passes that commit on older reads are the subject of `StaleReads`.
  Row locks appear as events that are not enabled.
- Safety.InFlightHasRow: after the grace it promises nothing, because the property fails there; `InFlight` says exactly when.
- Rest.RefusedForever: leaves out VMs into whose operations a reboot result was misfiled, whose refused operations can end.
- Queue.TakenVmidBlocksQueue: one worker at a time; a second worker passes the row while the first one's transaction on it
  is open.
- Drain.RunOnce: makes the one read of its pass just before the transaction instead of inside it, and counts a pass whose
  first transaction raised as processed; several workers are the subject of `Protocol`, not of this method.
- Drain.RunUntilIdle: ends at the first run that finds nothing due, where `run_worker` sleeps and goes on.
- OneShot.ProtocolSimulatesOneShot: polls of the older handlers are the typed `Poll`; an adapter call that raises is not
  a turn, since the older handlers then send again.
- Admission.InsertVmCreate: one insert decides by the unique key; other integrity errors are not part of this model.
- Identifiers: a VM's row position stands for its foreign keys and its UUID for names; UUID generation is a parameter.
- Time: one monotone clock, in microseconds, instead of one clock per worker and one at the database; a column default of
  "now" is the commit's time.
- `client.py`, HTTP and JSON: the cluster is a map of resources, and reads or requests may fail.
- `assign_starter_quota`, migrations, backfilled operations without phase or key, routers, templates, identity, SSH key
  parsing, worker configuration, logging and sleeps are not part of this model.
