/** What every answer leads to, in plain stages, statuses and times: the other half of the safety theorems. No due
    row is overlooked, an effect that can be seen is recognised, a task that ends ends its step, a result moves its
    operation on, and every row's error says how it got there. */
module Progression {
  import opened Domain
  import opened Phases
  import opened Transitions
  import opened Tables
  import opened Evolution
  import opened Rows
  import opened Worker
  import opened Protocol
  import opened Invariants
  import opened Agreement

  // ---- no row is overlooked ----

  /** When a stage is due: at once, after ten seconds, after five minutes, or never (times in microseconds). */
  lemma DueExactly(op: Op, now: Time)
    ensures op.stage.Queued? ==> Selectable(op, now)
    ensures op.stage.Awaiting? && !op.stage.slow ==> Selectable(op, now)
    ensures op.stage.Awaiting? && op.stage.slow ==> (Selectable(op, now) <==> op.updatedAt + 10_000_000 <= now)
    ensures op.stage.Unsure? ==> (Selectable(op, now) <==> op.updatedAt + 10_000_000 <= now)
    ensures op.stage.Dispatched? ==> (Selectable(op, now) <==> op.updatedAt + 300_000_000 <= now)
    ensures op.stage.Parked? || op.stage.Done? || op.stage.Broken? ==> !Selectable(op, now)
  {}

  /** An active row that is not parked is due five minutes after its last change at the latest. */
  lemma NoRowForgotten(op: Op, now: Time)
    requires Fits(op.kind, op.stage) && Active(op.stage) && !op.stage.Parked? && op.updatedAt + 300_000_000 <= now
    ensures Selectable(op, now) && SelectableRow(OpRowOf(op), now)
  {
    SelectableShown(op, now);
  }

  /** The queue query on the stored row of each stage: pending at once, reconcile and backed-off phases after ten
      seconds, dispatch phases after five minutes, a polled task at once, and parked or finished rows never. */
  lemma StoredRowDue(op: Op, now: Time)
    requires Fits(op.kind, op.stage)
    ensures var row := OpRowOf(op);
            SelectableRow(row, now) <==>
              match op.stage
              case Queued(_) => row.status == Pending
              case Dispatched(_) => row.updatedAt + 300_000_000 <= now
              case Unsure(_) => row.updatedAt + 10_000_000 <= now
              case Awaiting(_, _, slow) => row.providerTaskId.Some? && (slow ==> row.updatedAt + 10_000_000 <= now)
              case _ => false
  {
    hide PhaseText;
    SelectableShown(op, now);
    DueExactly(op, now);
  }

  // ---- an effect that can be seen is recognised ----

  /** The pass of a worker that reads this power state now. */
  function PowerPass(s: State, i: nat, power: Power, locked: bool): Event {
    Pass(i, s.clock, s.clock, Answers(TargetUnavailable, PowerIs(power, locked), TaskUnavailable))
  }

  /** The row shows the dispatch or reconcile mark of the command, and it is time to look at it again. */
  predicate Looks(s: State, i: nat, c: Command) {
    && i < |s.t.ops| && s.t.ops[i].vm < |s.t.vms|
    && ((s.t.ops[i].stage == Dispatched(c) && s.t.ops[i].updatedAt + 300_000_000 <= s.clock)
        || (s.t.ops[i].stage == Unsure(c) && s.t.ops[i].updatedAt + 10_000_000 <= s.clock))
  }

  /** The VM's own unlocked resource at its saved VMID, in this power state. */
  predicate Stands(s: State, v: nat, running: bool) {
    && v < |s.t.vms| && s.t.vms[v].at.Some? && s.t.vms[v].at.value.vmid in s.machines
    && var m := s.machines[s.t.vms[v].at.value.vmid];
       m.owner == Some(v) && m.running == running && !m.cloning && !m.locked
  }

  /** The event happens, and leaves the operation and its VM like this. */
  ghost predicate LeadsTo(s: State, e: Event, i: nat, stage: Stage, status: VmStatus, error: Option<string>) {
    && Enabled(s, e) && i < |s.t.ops| && i < |Do(s, e).t.ops| && s.t.ops[i].vm < |Do(s, e).t.vms|
    && Do(s, e).t.ops[i].stage == stage && Do(s, e).t.ops[i].error == error
    && Do(s, e).t.ops[i].updatedAt == s.clock
    && Do(s, e).t.vms[s.t.ops[i].vm].status == status
  }

  /** While an operation is active no request holds its VM row. */
  lemma ActiveUnlocked(s: State, i: nat)
    requires Inv(s) && i < |s.t.ops| && Active(s.t.ops[i].stage)
    ensures !VmLocked(s.drafts, s.t.ops[i].vm)
  {
    hide CallsOk, CallsUnique, MarkersCalled, TasksUnique, TablesOk;
  }

  /** A pass that commits on a placed row is the event's outcome. */
  lemma PassOutcome(s: State, e: Event, i: nat)
    requires Inv(s) && i < |s.t.ops| && e.Pass? && e.op == i && e.now == e.read == s.clock
    requires Selectable(s.t.ops[i], s.clock) && s.t.vms[s.t.ops[i].vm].at.Some?
    requires Truthful(s, s.t.ops[i], s.t.vms[s.t.ops[i].vm], e.answers)
    ensures var o := FirstPass(s.t.ops[i], s.t.vms[s.t.ops[i].vm], e.answers, s.clock);
            o.Commit? ==>
              && Enabled(s, e) && |Do(s, e).t.ops| == |s.t.ops| && |Do(s, e).t.vms| == |s.t.vms|
              && Do(s, e).t.ops[i] == o.op && Do(s, e).t.vms[s.t.ops[i].vm] == o.vm
  {
    hide CallsOk, CallsUnique, MarkersCalled, TasksUnique, DraftsOk, OneActive, UnplacedPending, FirstPass, Truthful;
    assert Sound(s.t.ops[i], s.t.vms[s.t.ops[i].vm]);
    PassEvolves(s.t.ops[i], s.t.vms[s.t.ops[i].vm], s.clock, e.answers, s.clock);
    ActiveUnlocked(s, i);
    assert VmidFree(s.t.vms, s.t.ops[i].vm, s.t.vms[s.t.ops[i].vm].at);
  }

  /** A clone that is finished, stopped and unlocked is recognised: the create goes on to configure. */
  lemma CloneRecognised(s: State, i: nat)
    requires Inv(s) && Looks(s, i, CloneVm) && Stands(s, s.t.ops[i].vm, false)
    ensures LeadsTo(s, PowerPass(s, i, Stopped, false), i, Queued(ConfigureVm), VmProvisioning, None)
  {
    RecognisedRow(s, i, CloneVm, Stopped);
  }

  /** A VM that runs, unlocked, ends a create, a start or the second half of a reboot as succeeded. */
  lemma StartRecognised(s: State, i: nat)
    requires Inv(s) && Looks(s, i, StartVm) && Stands(s, s.t.ops[i].vm, true)
    ensures LeadsTo(s, PowerPass(s, i, Power.Running, false), i, Done, VmRunning, None)
  {
    RecognisedRow(s, i, StartVm, Power.Running);
  }

  /** A VM that is off, unlocked, ends a shutdown, and turns a reboot to its start. */
  lemma ShutdownRecognised(s: State, i: nat)
    requires Inv(s) && Looks(s, i, ShutdownVm) && Stands(s, s.t.ops[i].vm, false)
    ensures LeadsTo(s, PowerPass(s, i, Stopped, false), i,
                    if s.t.ops[i].kind == Reboot then Queued(StartVm) else Done, VmStopped, None)
  {
    RecognisedRow(s, i, ShutdownVm, Stopped);
  }

  /** A VM that is off, unlocked, ends a stop. */
  lemma StopRecognised(s: State, i: nat)
    requires Inv(s) && Looks(s, i, StopVm) && Stands(s, s.t.ops[i].vm, false)
    ensures LeadsTo(s, PowerPass(s, i, Stopped, false), i, Done, VmStopped, None)
  {
    RecognisedRow(s, i, StopVm, Stopped);
  }

  /** A VM that is gone ends a delete. */
  lemma DeleteRecognised(s: State, i: nat)
    requires Inv(s) && Looks(s, i, DeleteVm)
    requires s.t.vms[s.t.ops[i].vm].at.Some? && s.t.vms[s.t.ops[i].vm].at.value.vmid !in s.machines
    ensures LeadsTo(s, PowerPass(s, i, Missing, false), i, Done, VmDeleted, None)
  {
    RecognisedRow(s, i, DeleteVm, Missing);
  }

  lemma RecognisedRow(s: State, i: nat, c: Command, power: Power)
    requires Inv(s) && Looks(s, i, c) && s.t.vms[s.t.ops[i].vm].at.Some?
    requires PowerRead(s.machines, s.t.ops[i].vm, s.t.vms[s.t.ops[i].vm].at.value) == PowerIs(power, false)
    ensures var op, vm, e := s.t.ops[i], s.t.vms[s.t.ops[i].vm], PowerPass(s, i, power, false);
            var o := Reconcile(op, vm, PowerIs(power, false), s.clock);
            && Sound(op, vm) && Uses(op.kind, c)
            && (o.Commit? ==>
                  && Enabled(s, e) && |Do(s, e).t.ops| == |s.t.ops| && |Do(s, e).t.vms| == |s.t.vms|
                  && Do(s, e).t.ops[i] == o.op && Do(s, e).t.vms[op.vm] == o.vm)
  {
    hide CallsOk, CallsUnique, MarkersCalled, TasksUnique, DraftsOk, OneActive, UnplacedPending, UniqueVmids, Reconcile,
      Enabled, Do;
    assert Sound(s.t.ops[i], s.t.vms[s.t.ops[i].vm]);
    PassOutcome(s, PowerPass(s, i, power, false), i);
  }

  // ---- what a reconciliation does otherwise ----

  /** A configure or resize whose outcome is unknown is parked, whatever the power state. */
  lemma UnverifiableParks(op: Op, vm: Vm, answer: PowerAnswer, stamp: Time)
    requires op.stage in {Dispatched(ConfigureVm), Unsure(ConfigureVm), Dispatched(ResizeDisk), Unsure(ResizeDisk)}
             && vm.at.Some?
    ensures Reconcile(op, vm, answer, stamp)
         == Commit(op.(stage := Parked(op.stage.cmd), error := Some("provider_outcome_unknown"),
                       updatedAt := stamp), vm)
  {}

  /** Any other command waits on: the error says whether the state was read at all. */
  lemma UnprovenWaits(op: Op, vm: Vm, answer: PowerAnswer, stamp: Time)
    requires (op.stage.Dispatched? || op.stage.Unsure?) && vm.at.Some?
    requires op.stage.cmd != ConfigureVm && op.stage.cmd != ResizeDisk
    requires answer.PowerIs? ==>
               match op.stage.cmd
               case StartVm => answer.power != Power.Running || answer.locked
               case DeleteVm => answer.power != Missing
               case _ => answer.power != Stopped || answer.locked
    ensures Reconcile(op, vm, answer, stamp)
         == Commit(op.(stage := Unsure(op.stage.cmd), updatedAt := stamp,
                       error := Some(if answer.PowerIs? then "provider_outcome_unknown"
                                     else "provider_status_unavailable")),
                   vm)
  {}

  // ---- a task that ends, ends its step ----

  function TaskPass(s: State, i: nat, answer: TaskAnswer): Event {
    Pass(i, s.clock, s.clock, Answers(TargetUnavailable, PowerUnavailable, answer))
  }

  /** The row waits for a task of one of the calls, and may be polled now. */
  predicate Polls(s: State, i: nat, k: nat) {
    && i < |s.t.ops| && s.t.ops[i].vm < |s.t.vms| && s.t.ops[i].stage.Awaiting? && k < |s.calls|
    && s.calls[k].progress.Tasked? && s.calls[k].progress.id == s.t.ops[i].stage.task
    && (s.t.ops[i].stage.slow ==> s.t.ops[i].updatedAt + 10_000_000 <= s.clock)
  }

  /** What follows a command of an operation that is done. */
  function AfterStage(kind: Kind, c: Command): Stage {
    if c == CloneVm then Queued(ConfigureVm)
    else if c == ConfigureVm then Queued(ResizeDisk)
    else if c == ResizeDisk then Queued(StartVm)
    else if c == ShutdownVm && kind == Reboot then Queued(StartVm)
    else Done
  }

  /** The VM status a finished command leaves. */
  function AfterStatus(c: Command): VmStatus {
    match c
    case StartVm => VmRunning
    case DeleteVm => VmDeleted
    case ShutdownVm => VmStopped
    case StopVm => VmStopped
    case _ => VmProvisioning
  }

  /** A poll of a task that succeeded moves the operation past the command. */
  lemma SucceededTaskMovesOn(s: State, i: nat, k: nat)
    requires Inv(s) && Polls(s, i, k) && s.calls[k].progress.state == Ended
    ensures var c := s.t.ops[i].stage.cmd;
            LeadsTo(s, TaskPass(s, i, TaskSucceeded), i, AfterStage(s.t.ops[i].kind, c), AfterStatus(c), None)
  {
    hide CallsOk, CallsUnique, MarkersCalled, TasksUnique, DraftsOk, OneActive, UnplacedPending, UniqueVmids, Enabled,
      Do;
    assert Sound(s.t.ops[i], s.t.vms[s.t.ops[i].vm]);
    PassOutcome(s, TaskPass(s, i, TaskSucceeded), i);
  }

  /** A poll of a task that failed ends the operation as failed with the task's error code, or "provider_task_failed"
      when it has none. A failed create fails its VM, a failed delete keeps it deleting, anything else leaves it
      alone. */
  lemma FailedTaskEnds(s: State, i: nat, k: nat, code: Option<string>)
    requires Inv(s) && Polls(s, i, k) && s.calls[k].progress.state == Aborted
    ensures var op, e := s.t.ops[i], TaskPass(s, i, TaskFailed(code));
            && Enabled(s, e) && i < |Do(s, e).t.ops| && op.vm < |Do(s, e).t.vms|
            && StatusOf(Do(s, e).t.ops[i].stage) == OpStatus.Failed
            && TaskOf(Do(s, e).t.ops[i].stage) == Some(op.stage.task)
            && Do(s, e).t.ops[i].stage == Broken(op.stage.cmd, op.stage.task,
                                                 op.stage.slow && op.kind !in {Create, Reboot})
            && Do(s, e).t.ops[i].error
               == Some(if code.Some? && code.value != "" then code.value else "provider_task_failed")
            && Do(s, e).t.vms[op.vm].status
               == (match op.kind
                   case Create => VmFailed
                   case Delete => VmDeleting
                   case _ => s.t.vms[op.vm].status)
  {
    hide CallsOk, CallsUnique, MarkersCalled, TasksUnique, DraftsOk, OneActive, UnplacedPending, UniqueVmids, Enabled,
      Do;
    assert Sound(s.t.ops[i], s.t.vms[s.t.ops[i].vm]);
    PassOutcome(s, TaskPass(s, i, TaskFailed(code)), i);
  }

  /** A poll that finds the task running, or finds nothing out, keeps waiting for the same task. */
  lemma UnfinishedTaskWaits(op: Op, vm: Vm, answer: TaskAnswer, stamp: Time)
    requires op.stage.Awaiting? && vm.at.Some? && (answer.TaskRunning? || answer.TaskUnavailable?)
    ensures var o := Poll(op, vm, answer, stamp);
            && o.Commit? && o.vm == vm && o.op.updatedAt == stamp && o.op.attempts == op.attempts
            && o.op.stage == Awaiting(op.stage.cmd, op.stage.task, o.op.stage.slow)
            && (answer.TaskUnavailable? ==> o.op.stage.slow && o.op.error == Some("provider_status_unavailable"))
            && (answer.TaskRunning? && op.kind in {Create, Start} ==> !o.op.stage.slow && o.op.error == None)
            && (answer.TaskRunning? && op.kind == Reboot ==> !o.op.stage.slow && o.op.error == op.error)
            && (answer.TaskRunning? && op.kind in {Shutdown, Stop, Delete} ==>
                  o.op.stage.slow == op.stage.slow && o.op.error == op.error)
  {}

  // ---- a result moves its operation on ----

  /** The worker still waits under its call's own marker. */
  predicate AtOwnMarker(s: State, k: nat) {
    && k < |s.calls| && s.calls[k].attached && s.calls[k].op < |s.t.ops| && OpVm(s, k) < |s.t.vms|
    && s.t.ops[s.calls[k].op].stage == Dispatched(s.calls[k].cmd)
  }

  /** A finish that commits is the event's outcome. */
  lemma FinishOutcome(s: State, k: nat)
    requires Inv(s) && AtOwnMarker(s, k) && ResultOf(s.calls[k]).Some?
    ensures Sound(s.t.ops[s.calls[k].op], s.t.vms[OpVm(s, k)]) && s.t.vms[OpVm(s, k)].at == Some(s.calls[k].at)
    ensures var o := SettleOf(s, k);
            o.Commit? ==>
              && Enabled(s, Finish(k)) && |Do(s, Finish(k)).t.ops| == |s.t.ops| && |Do(s, Finish(k)).t.vms| == |s.t.vms|
              && Do(s, Finish(k)).t.ops[s.calls[k].op] == o.op && Do(s, Finish(k)).t.vms[OpVm(s, k)] == o.vm
  {
    hide CallsUnique, MarkersCalled, TasksUnique, DraftsOk, OneActive, UnplacedPending, Settle, Misfiles;
    assert CallOk(s.t, s.calls[k]);
    assert Sound(s.t.ops[s.calls[k].op], s.t.vms[OpVm(s, k)]);
    SettleEvolves(s.t.ops[s.calls[k].op], s.t.vms[OpVm(s, k)], s.calls[k].cmd, ResultOf(s.calls[k]).value, s.clock);
    ActiveUnlocked(s, s.calls[k].op);
    assert VmidFree(s.t.vms, OpVm(s, k), s.t.vms[OpVm(s, k)].at);
  }

  /** A worker that stores a task, under its call's own marker: the operation waits for that task. */
  lemma TaskMovesOn(s: State, k: nat)
    requires Inv(s) && AtOwnMarker(s, k) && s.calls[k].progress.Tasked?
    ensures LeadsTo(s, Finish(k), s.calls[k].op, Awaiting(s.calls[k].cmd, s.calls[k].progress.id, false),
                    if s.calls[k].cmd == CloneVm then VmProvisioning else s.t.vms[OpVm(s, k)].status, None)
  {
    hide Inv, Enabled, Do;
    FinishOutcome(s, k);
  }

  /** What an adapter answers when the goal was there already. */
  predicate Completed(c: Command, p: Progress) {
    match c
    case CloneVm => p == Answered(CloneResult(AlreadyDone, None))
    case DeleteVm => p == Answered(DeleteResult(AlreadyDone, None))
    case _ => p == Instant || p == Answered(NoTask)
  }

  /** A worker that stores a completion: the operation moves past the command. */
  lemma CompletionMovesOn(s: State, k: nat)
    requires Inv(s) && AtOwnMarker(s, k) && Completed(s.calls[k].cmd, s.calls[k].progress)
    ensures LeadsTo(s, Finish(k), s.calls[k].op, AfterStage(s.t.ops[s.calls[k].op].kind, s.calls[k].cmd),
                    AfterStatus(s.calls[k].cmd), None)
  {
    hide Inv, Enabled, Do;
    FinishOutcome(s, k);
  }

  /** A worker that stores "in progress": the operation is left to reconciliation. */
  lemma InProgressMovesOn(s: State, k: nat)
    requires Inv(s) && AtOwnMarker(s, k)
    requires s.calls[k].progress == match s.calls[k].cmd
                                    case CloneVm => Answered(CloneResult(InProgress, None))
                                    case _ => Answered(DeleteResult(InProgress, None))
    requires s.calls[k].cmd == CloneVm || s.calls[k].cmd == DeleteVm
    ensures LeadsTo(s, Finish(k), s.calls[k].op, Unsure(s.calls[k].cmd),
                    if s.calls[k].cmd == CloneVm then VmProvisioning else s.t.vms[OpVm(s, k)].status,
                    Some("provider_outcome_unknown"))
  {
    hide Inv, Enabled, Do;
    FinishOutcome(s, k);
  }

  /** Under a dispatch marker a result is refused exactly when it is not one of the command's own: a state that does
      not go with its task, another type, or a task that targets another placement. */
  lemma RefusedExactly(op: Op, vm: Vm, at: Placement, result: CallResult, stamp: Time)
    requires op.stage.Dispatched? && vm.at == Some(at)
    ensures Settle(op, vm, op.stage.cmd, result, stamp) == Rollback <==>
              match op.stage.cmd
              case CloneVm =>
                result !in {CloneResult(InProgress, None), CloneResult(AlreadyDone, None)}
                && !(result.CloneResult? && result.state == Submitted && result.cloneTask.Some?
                     && result.cloneTask.value.at == at)
              case DeleteVm =>
                result !in {DeleteResult(InProgress, None), DeleteResult(AlreadyDone, None)}
                && !(result.DeleteResult? && result.deleteState == Submitted && result.deleteTask.Some?
                     && result.deleteTask.value.at == at)
              case _ => result != NoTask && !(result.TaskResult? && result.task.at == at)
  {}

  /** A worker that got an exception, under the call's own marker: the operation is left to reconciliation. */
  lemma FailureMovesOn(s: State, k: nat)
    requires Inv(s) && AtOwnMarker(s, k)
    ensures LeadsTo(s, Fail(k), s.calls[k].op, Unsure(s.calls[k].cmd), s.t.vms[OpVm(s, k)].status,
                    Some("provider_submit_unknown"))
  {
    hide CallsUnique, MarkersCalled, TasksUnique, DraftsOk, OneActive, UnplacedPending;
    assert CallOk(s.t, s.calls[k]);
    assert Sound(s.t.ops[s.calls[k].op], s.t.vms[OpVm(s, k)]);
    ActiveUnlocked(s, s.calls[k].op);
    assert VmidFree(s.t.vms, OpVm(s, k), s.t.vms[OpVm(s, k)].at);
  }

  /** A queued step of a placed VM is marked and its command sent by the next pass, with the VM's own request. */
  lemma QueuedIsSent(s: State, i: nat)
    requires Inv(s) && i < |s.t.ops| && s.t.ops[i].stage.Queued? && s.t.vms[s.t.ops[i].vm].at.Some?
    ensures var op, vm := s.t.ops[i], s.t.vms[s.t.ops[i].vm];
            var e := Pass(i, s.clock, s.clock, Answers(TargetUnavailable, PowerUnavailable, TaskUnavailable));
            && LeadsTo(s, e, i, Dispatched(op.stage.cmd),
                       if op.stage.cmd == DeleteVm then VmDeleting else vm.status, op.error)
            && Do(s, e).calls == s.calls + [Call(i, op.stage.cmd, vm.at.value, vm.spec, s.clock, true, Sent)]
            && Do(s, e).t.ops[i].attempts == op.attempts + 1
  {
    hide CallsOk, CallsUnique, MarkersCalled, TasksUnique, DraftsOk, OneActive, UnplacedPending, UniqueVmids;
    var e := Pass(i, s.clock, s.clock, Answers(TargetUnavailable, PowerUnavailable, TaskUnavailable));
    assert Sound(s.t.ops[i], s.t.vms[s.t.ops[i].vm]);
    PassOutcome(s, e, i);
  }

  /** A new create is given the offered target if no row has its VMID: that is saved and nothing else changes. */
  lemma PlacementIsSaved(s: State, i: nat, at: Placement)
    requires Inv(s) && i < |s.t.ops| && s.t.ops[i].stage == Queued(CloneVm) && s.t.vms[s.t.ops[i].vm].at.None?
    requires forall j :: 0 <= j < |s.t.vms| && s.t.vms[j].at.Some? ==> s.t.vms[j].at.value.vmid != at.vmid
    ensures var e := Pass(i, s.clock, s.clock, Answers(Target(at), PowerUnavailable, TaskUnavailable));
            var v := s.t.ops[i].vm;
            Enabled(s, e) && Do(s, e) == s.(t := s.t.(vms := s.t.vms[v := s.t.vms[v].(at := Some(at))]))
  {
    hide CallsOk, CallsUnique, MarkersCalled, TasksUnique, DraftsOk, OneActive, UnplacedPending;
    assert Sound(s.t.ops[i], s.t.vms[s.t.ops[i].vm]);
    ActiveUnlocked(s, i);
    assert s.t.ops[i := s.t.ops[i]] == s.t.ops;
  }

  // ---- commands reach the provider ----

  /** An agreed operation's call meets the resource its command expects. Unless that is locked, or the disk is larger
      than requested, the provider takes the command: at once or as a task. */
  lemma SentIsTaken(s: State, k: nat, id: TaskId, instant: bool, gb: int)
    requires Agreed(s) && CanReach(s, k, id) && OpVm(s, k) !in s.misfiled
    requires s.calls[k].at.vmid in s.machines ==> !s.machines[s.calls[k].at.vmid].locked
    requires s.calls[k].cmd == CloneVm ==> s.calls[k].at.vmid !in s.machines
    ensures var p, p' := s.calls[k], Do(s, Effect(k, id, instant, gb)).calls[k].progress;
            match p.cmd
            case ConfigureVm => p' == if instant then Instant else Tasked(id, Waiting)
            case ResizeDisk =>
              p.at.vmid in s.machines
              && var disk := s.machines[p.at.vmid].diskGb;
                 p' == if disk == p.request.storageGb then Instant
                       else if disk < p.request.storageGb then Tasked(id, Waiting) else Rejected
            case _ => p' == Tasked(id, Waiting)
  {
    hide CallAgrees, CloneHeld, VmAgrees, DraftsOk, MarkersCalled, TasksUnique;
    PendingIsCurrent(s, k);
    assert CallOk(s.t, s.calls[k]);
  }

  // ---- errors ----

  /** How the error column fits the stage. */
  predicate ErrorFits(op: Op) {
    match op.stage
    case Queued(_) => op.error == None
    case Dispatched(_) => op.error == None
    case Done => op.error == None
    case Unsure(_) =>
      op.error in {Some("provider_outcome_unknown"), Some("provider_status_unavailable"),
                   Some("provider_submit_unknown")}
    case Parked(_) => op.error == Some("provider_outcome_unknown")
    case Awaiting(_, _, slow) =>
      op.error == Some("provider_status_unavailable") || (!slow && op.error == None)
    case Broken(_, _, _) => op.error.Some? && op.error.value != ""
  }

  predicate ErrorsFit(ops: seq<Op>) {
    forall i :: 0 <= i < |ops| ==> ErrorFits(ops[i])
  }

  lemma PassErrors(op: Op, vm: Vm, now: Time, answers: Answers, stamp: Time)
    requires Sound(op, vm) && Selectable(op, now) && ErrorFits(op)
    ensures var o := FirstPass(op, vm, answers, stamp); o.Commit? ==> ErrorFits(o.op)
  {
    hide Reconcile, Poll, Sound;
    if op.stage.Awaiting? {
      PollErrors(op, vm, answers.task, stamp);
    } else if !op.stage.Queued? {
      ReadErrors(op, vm, answers.power, stamp);
    }
  }

  lemma ReadErrors(op: Op, vm: Vm, answer: PowerAnswer, stamp: Time)
    requires op.stage.Dispatched? || op.stage.Unsure?
    ensures var o := Reconcile(op, vm, answer, stamp); o.Commit? ==> ErrorFits(o.op)
  {}

  lemma PollErrors(op: Op, vm: Vm, answer: TaskAnswer, stamp: Time)
    requires op.stage.Awaiting? && ErrorFits(op)
    ensures var o := Poll(op, vm, answer, stamp); o.Commit? ==> ErrorFits(o.op)
  {}

  lemma StoreErrors(op: Op, vm: Vm, sent: Command, result: CallResult, stamp: Time)
    requires Sound(op, vm)
    ensures var o := Settle(op, vm, sent, result, stamp); o.Commit? ==> ErrorFits(o.op)
    ensures var o := Lose(op, vm, sent, stamp); o.Commit? ==> ErrorFits(o.op)
  {}

  lemma StepErrors(s: State, e: Event)
    requires Inv(s) && ErrorsFit(s.t.ops)
    ensures ErrorsFit(Do(s, e).t.ops)
  {
    hide ErrorFits, CanPass, CanFinish, CanFail, CanReach, CanApply, CanAbort, Attempt, Change, DoInsertCreate,
      DoInsertEnqueue, Within, TotalUsage, Inv, FirstPass, Settle, Lose, Misfiles, Extend;
    if Enabled(s, e) {
      match e
      case Pass(i, now, read, answers) => PassRowErrors(s, i, now, read, answers);
      case Finish(k) => FinishRowErrors(s, k);
      case Fail(k) => FailRowErrors(s, k);
      case InsertCreate(d) => InsertErrors(s, e);
      case InsertEnqueue(d) => InsertErrors(s, e);
      case _ =>
    }
  }

  lemma PassRowErrors(s: State, i: nat, now: Time, read: Time, answers: Answers)
    requires Inv(s) && ErrorsFit(s.t.ops) && CanPass(s, i, now, read, answers)
    ensures ErrorsFit(Transact(s.t, i, FirstPass(s.t.ops[i], s.t.vms[s.t.ops[i].vm], answers, s.clock)).ops)
  {
    hide ErrorFits, FirstPass, CallsOk, CallsUnique, MarkersCalled, TasksUnique, DraftsOk, Truthful;
    assert Sound(s.t.ops[i], s.t.vms[s.t.ops[i].vm]);
    PassErrors(s.t.ops[i], s.t.vms[s.t.ops[i].vm], now, answers, s.clock);
  }

  lemma FinishRowErrors(s: State, k: nat)
    requires Inv(s) && ErrorsFit(s.t.ops) && CanFinish(s, k)
    ensures ErrorsFit(Transact(s.t, s.calls[k].op, SettleOf(s, k)).ops)
  {
    hide ErrorFits, Settle, CallsOk, CallsUnique, MarkersCalled, TasksUnique, DraftsOk;
    assert Sound(s.t.ops[s.calls[k].op], s.t.vms[OpVm(s, k)]);
    StoreErrors(s.t.ops[s.calls[k].op], s.t.vms[OpVm(s, k)], s.calls[k].cmd, ResultOf(s.calls[k]).value, s.clock);
  }

  lemma FailRowErrors(s: State, k: nat)
    requires Inv(s) && ErrorsFit(s.t.ops) && CanFail(s, k)
    ensures ErrorsFit(Transact(s.t, s.calls[k].op, LoseOf(s, k)).ops)
  {
    hide ErrorFits, Lose, CallsOk, CallsUnique, MarkersCalled, TasksUnique, DraftsOk;
    assert Sound(s.t.ops[s.calls[k].op], s.t.vms[OpVm(s, k)]);
    StoreErrors(s.t.ops[s.calls[k].op], s.t.vms[OpVm(s, k)], s.calls[k].cmd, NoTask, s.clock);
  }

  lemma InsertErrors(s: State, e: Event)
    requires ErrorsFit(s.t.ops) && Enabled(s, e) && (e.InsertCreate? || e.InsertEnqueue?)
    ensures ErrorsFit(Do(s, e).t.ops)
  {
    hide KeyFree;
  }

  /** In every run each row's error says how it came to its stage: none while queued, dispatched or succeeded, one of
      the three unknown codes while unsure, a task's code once failed. */
  lemma {:induction false} RunErrors(plans: map<UserId, Plan>, events: seq<Event>)
    ensures ErrorsFit(Run(Initial(plans), events).t.ops)
  {
    hide Do, ErrorsFit, Inv;
    if events == [] {
      NoErrors();
    } else {
      RunErrors(plans, events[..|events| - 1]);
      InitialInv(plans);
      RunInv(Initial(plans), events[..|events| - 1]);
      StepErrors(Run(Initial(plans), events[..|events| - 1]), events[|events| - 1]);
    }
  }

  lemma NoErrors()
    ensures ErrorsFit([])
  {}
}
