/** The service functions of the operation phase machines, written over ORM objects and phase strings.
    An exception is the out-parameter `raised`; the caller then rolls the transaction back. */
module OperationServices {
  import opened Domain
  import opened Texts
  import opened Phases
  import opened Transitions
  import opened Rows

  /** The row after the flush: a changed row whose `updated_at` was not assigned gets the flush time. */
  function Flushed(before: OpRow, after: OpRow, stamp: Time): OpRow {
    if after != before && after.updatedAt == before.updatedAt then after.(updatedAt := stamp) else after
  }

  /** A service call on objects does what the typed transition says. */
  ghost predicate Realises(o: Outcome, raised: bool, before: OpRow, after: OpRow, vmAfter: VmRow) {
    && (raised <==> o.Rollback?)
    && (o.Commit? ==>
          && Fits(o.op.kind, o.op.stage)
          && Flushed(before, after, o.op.updatedAt) == OpRowOf(o.op)
          && vmAfter == VmRowOf(o.vm))
  }

  /** A row carries the dispatch marker of `sent` exactly when the operation it shows was dispatched with `sent`. */
  lemma MarkerShowsDispatch(row: OpRow, op: Op, sent: Command)
    requires ShowsOp(row, op) && Uses(op.kind, sent)
    ensures op.stage == Dispatched(sent) <==>
            row.status == Processing && row.providerTaskId == None && row.phase == Some(DispatchText(op.kind, sent))
  {
    if !op.stage.Done? {
      MarkersDiffer(op.kind, sent, op.stage.cmd);
      FirstLetters(op.kind, sent);
      FirstLetters(op.kind, op.stage.cmd);
    }
  }

  function RequestOf(vm: VmRow, keys: map<nat, SshKey>): CreateVmRequest
    requires KeyUsable(vm, keys)
  {
    CreateVmRequest(vm.id, vm.imageId, vm.requestedVcpus, vm.requestedMemoryMb, vm.requestedStorageGb,
                    keys[vm.sshPublicKeyId.value].publicKey)
  }

  // ---- create ----

  method PrepareCreateVmDispatch(operation: Operation, vm: VirtualMachine, keys: map<nat, SshKey>, stamp: Time,
                                 ghost op: Op, ghost v: Vm)
    returns (raised: bool, request: Option<CreateVmRequest>, target: Placement)
    modifies operation
    ensures raised ==> unchanged(operation)
    ensures raised <==>
            !(&& operation.operationType == Create && old(operation.status) == Pending
              && old(operation.providerTaskId) == None
              && old(operation.phase) in {Some("clone"), Some("configure"), Some("resize"), Some("start")}
              && Placed(vm.Row())
              && (old(operation.phase) == Some("start") || KeyUsable(vm.Row(), keys)))
    ensures !raised ==> target == Placement(vm.providerNode.value, vm.providerVmid.value)
    ensures !raised ==> request == if old(operation.phase) == Some("start") then None
                                   else Some(RequestOf(vm.Row(), keys))
    ensures !raised && request.Some? ==>
              && request.value.vmId == vm.id && request.value.imageId == vm.imageId
              && request.value.vcpus == vm.requestedVcpus && request.value.memoryMb == vm.requestedMemoryMb
              && request.value.storageGb == vm.requestedStorageGb
              && vm.sshPublicKeyId.Some? && vm.sshPublicKeyId.value in keys
              && request.value.sshPublicKey == keys[vm.sshPublicKeyId.value].publicKey
              && keys[vm.sshPublicKeyId.value].ownerUserId == vm.ownerUserId
    ensures old(operation.Shows(op)) && vm.Shows(v) && op.kind == Create && KeyUsable(vm.Row(), keys) ==>
              Realises(Mark(op, v, stamp), raised, old(operation.Row()), operation.Row(), vm.Row())
  {
    raised, request, target := true, None, Placement("", 0);
    if operation.operationType != Create || operation.status != Pending { return; }
    if operation.providerTaskId != None { return; }
    if operation.phase !in {Some("clone"), Some("configure"), Some("resize"), Some("start")} { return; }
    if vm.providerNode == None || vm.providerVmid == None { return; }
    if operation.phase != Some("start") {
      if !KeyUsable(vm.Row(), keys) { return; }
      request := Some(RequestOf(vm.Row(), keys));
    }
    operation.status := Processing;
    operation.phase := Some("dispatch_create_" + operation.phase.value);
    operation.attempts := operation.attempts + 1;
    operation.updatedAt := stamp;
    if old(operation.Shows(op)) && op.kind == Create {
      DispatchSpelling(Create, op.stage.cmd);
    }
    raised := false;
    target := Placement(vm.providerNode.value, vm.providerVmid.value);
  }

  /** The clone branch of `finish_create_vm_dispatch`, after its marker check. */
  method FinishClone(operation: Operation, vm: VirtualMachine, result: CallResult, stamp: Time, ghost op: Op,
                     ghost v: Vm)
    returns (raised: bool)
    requires operation.status == Processing && operation.providerTaskId == None && Placed(vm.Row())
    modifies operation, vm
    ensures raised ==> unchanged(operation)
    ensures old(operation.Shows(op) && vm.Shows(v)) && op.kind == Create && op.stage == Dispatched(CloneVm) ==>
              Realises(Settle(op, v, CloneVm, result, stamp), raised, old(operation.Row()), operation.Row(), vm.Row())
  {
    hide DispatchText, ParkedText;
    raised := true;
    if !result.CloneResult? { return; }
    if result.state == InProgress {
      if result.cloneTask != None { return; }
      operation.phase := Some("reconcile_create_clone");
      operation.lastErrorCode := Some("provider_outcome_unknown");
      operation.updatedAt := stamp;
      vm.status := VmProvisioning;
      return false;
    }
    if result.state == AlreadyDone {
      if result.cloneTask != None { return; }
      operation.status := Pending;
      operation.phase := Some("configure");
      operation.lastErrorCode := None;
      vm.status := VmProvisioning;
      return false;
    }
    if result.cloneTask == None { return; }
    var task := result.cloneTask.value;
    vm.status := VmProvisioning;
    if task.at != Placement(vm.providerNode.value, vm.providerVmid.value) { return; }
    operation.providerTaskId := Some(task.id);
    operation.phase := Some("clone");
    operation.lastErrorCode := None;
    raised := false;
  }

  /** The configure, resize and start branches of `finish_create_vm_dispatch`, after its marker check. */
  method FinishCreateStep(operation: Operation, vm: VirtualMachine, sent: Command, result: CallResult,
                          stamp: Time, ghost op: Op, ghost v: Vm)
    returns (raised: bool)
    requires Uses(Create, sent) && sent != CloneVm
    requires operation.status == Processing && operation.providerTaskId == None && Placed(vm.Row())
    modifies operation, vm
    ensures raised ==> unchanged(operation)
    ensures old(operation.Shows(op) && vm.Shows(v)) && op.kind == Create && op.stage == Dispatched(sent) ==>
              Realises(Settle(op, v, sent, result, stamp), raised, old(operation.Row()), operation.Row(), vm.Row())
  {
    hide DispatchText, UnsureText, ParkedText;
    raised := true;
    if !result.NoTask? && !result.TaskResult? { return; }
    if result.TaskResult? {
      if result.task.at != Placement(vm.providerNode.value, vm.providerVmid.value) { return; }
      operation.providerTaskId := Some(result.task.id);
      operation.phase := Some(CommandText(sent));
    } else if sent == ConfigureVm {
      operation.status := Pending;
      operation.phase := Some("resize");
    } else if sent == ResizeDisk {
      operation.status := Pending;
      operation.phase := Some("start");
    } else {
      operation.status := Succeeded;
      operation.phase := Some("complete");
      vm.status := VmRunning;
    }
    operation.lastErrorCode := None;
    raised := false;
  }

  method FinishCreateVmDispatch(operation: Operation, vm: VirtualMachine, sent: Command, result: CallResult,
                                stamp: Time, ghost op: Op, ghost v: Vm)
    returns (raised: bool)
    requires Uses(Create, sent)
    modifies operation, vm
    ensures raised ==> unchanged(operation)
    ensures old(operation.status) != Processing || old(operation.phase) != Some(DispatchText(Create, sent)) ==> raised
    ensures old(operation.Shows(op) && vm.Shows(v)) && op.kind == Create ==>
              Realises(Settle(op, v, sent, result, stamp), raised, old(operation.Row()), operation.Row(), vm.Row())
  {
    raised := true;
    DispatchSpelling(Create, sent);
    if operation.Shows(op) && op.kind == Create { MarkerShowsDispatch(operation.Row(), op, sent); }
    if || operation.operationType != Create || operation.status != Processing
       || operation.phase != Some("dispatch_create_" + CommandText(sent)) || operation.providerTaskId != None
       || vm.providerNode == None || vm.providerVmid == None
    {
      return;
    }
    if sent == CloneVm {
      raised := FinishClone(operation, vm, result, stamp, op, v);
    } else {
      raised := FinishCreateStep(operation, vm, sent, result, stamp, op, v);
    }
  }

  /** What a call inside `try` does: raises when its provider read raises, else performs the transition. */
  function Tried(unavailable: bool, o: Outcome): Outcome {
    if unavailable then Rollback else o
  }

  /** A dispatch or reconcile marker of a create step. */
  predicate IsCreateMarker(s: string) {
    exists c: Command :: Uses(Create, c) && (s == DispatchText(Create, c) || s == UnsureText(Create, c))
  }

  /** The phases `reconcile_create_vm_operation` accepts. */
  predicate InCreatePhases(s: string) {
    || s == "dispatch_create_clone" || s == "reconcile_create_clone"
    || s == "dispatch_create_configure" || s == "reconcile_create_configure"
    || s == "dispatch_create_resize" || s == "reconcile_create_resize"
    || s == "dispatch_create_start" || s == "reconcile_create_start"
  }

  /** The accepted phases are the markers of the four create steps. */
  lemma CreateMarkersSpelled(s: string)
    ensures InCreatePhases(s) <==> IsCreateMarker(s)
  {
    hide InCreatePhases, DispatchText, UnsureText, IsCreateMarker;
    CreatePhaseMarks(s);
    if IsCreateMarker(s) {
      var c := CreateMarkerOf(s);
      CreateMarkerListed(c);
    }
  }

  lemma CreateMarkerOf(s: string) returns (c: Command)
    requires IsCreateMarker(s)
    ensures Uses(Create, c) && (s == DispatchText(Create, c) || s == UnsureText(Create, c))
  {
    hide DispatchText, UnsureText;
    c :| Uses(Create, c) && (s == DispatchText(Create, c) || s == UnsureText(Create, c));
  }

  lemma CreateMarkerListed(c: Command)
    requires Uses(Create, c)
    ensures InCreatePhases(DispatchText(Create, c)) && InCreatePhases(UnsureText(Create, c))
  {}

  lemma CreatePhaseMarks(s: string)
    ensures InCreatePhases(s) ==> IsCreateMarker(s)
  {
    assert Uses(Create, CloneVm) && Uses(Create, ConfigureVm) && Uses(Create, ResizeDisk) && Uses(Create, StartVm);
    assert IsCreateMarker(DispatchText(Create, CloneVm)) && IsCreateMarker(UnsureText(Create, CloneVm));
    assert IsCreateMarker(DispatchText(Create, ConfigureVm)) && IsCreateMarker(UnsureText(Create, ConfigureVm));
    assert IsCreateMarker(DispatchText(Create, ResizeDisk)) && IsCreateMarker(UnsureText(Create, ResizeDisk));
    assert IsCreateMarker(DispatchText(Create, StartVm)) && IsCreateMarker(UnsureText(Create, StartVm));
  }

  /** Which power reading can prove the step of a create marker: the suffix tests of `reconcile_create_vm_operation`. */
  method StepOf(phase: string, ghost c: Command) returns (clone: bool, start: bool)
    requires Uses(Create, c) && (phase == DispatchText(Create, c) || phase == UnsureText(Create, c))
    ensures clone <==> c == CloneVm
    ensures start <==> c == StartVm
  {
    CreateSuffixes(c, phase);
    clone := EndsWith(phase, "_clone");
    start := EndsWith(phase, "_start");
  }

  /** The end of `reconcile_create_vm_operation`: nothing was proved, so park or keep waiting. */
  method LeaveUnconfirmed(operation: Operation, stamp: Time, ghost c: Command)
    requires Uses(Create, c)
    requires operation.phase == Some(DispatchText(Create, c)) || operation.phase == Some(UnsureText(Create, c))
    modifies operation
    ensures operation.Row() == old(operation.Row()).(
              phase := Some(if c == ConfigureVm || c == ResizeDisk then ParkedText(c) else UnsureText(Create, c)),
              lastErrorCode := OUTCOME_UNKNOWN, updatedAt := stamp)
  {
    hide DispatchText, UnsureText, ParkedText, ReplaceFirst, EndsWith;
    var phase := operation.phase.value;
    CreateSuffixes(c, phase);
    if EndsWith(phase, "_configure") || EndsWith(phase, "_resize") {
      MarkerToReview(c);
      var review := ReplaceFirst(phase, "dispatch_", "needs_review_");
      operation.phase := Some(ReplaceFirst(review, "reconcile_", "needs_review_"));
    } else {
      DispatchToReconcile(Create, c);
      operation.phase := Some(ReplaceFirst(phase, "dispatch_", "reconcile_"));
    }
    operation.lastErrorCode := Some("provider_outcome_unknown");
    operation.updatedAt := stamp;
  }

  /** A power reading that proves the step of a create marker. */
  method ConfirmFromPower(operation: Operation, vm: VirtualMachine, clone: bool)
    modifies operation, vm
    ensures operation.Row() == old(operation.Row()).(
              status := if clone then Pending else Succeeded,
              phase := Some(if clone then "configure" else "complete"), lastErrorCode := None)
    ensures vm.Row() == old(vm.Row()).(status := if clone then VmProvisioning else VmRunning)
  {
    if clone {
      operation.status := Pending;
      operation.phase := Some("configure");
      operation.lastErrorCode := None;
      vm.status := VmProvisioning;
    } else {
      operation.status := Succeeded;
      operation.phase := Some("complete");
      operation.lastErrorCode := None;
      vm.status := VmRunning;
    }
  }

  /** What reading the power state makes of the rows of a create's step. */
  lemma CreateReconciled(op: Op, v: Vm, answer: PowerAnswer, stamp: Time)
    requires op.kind == Create && (op.stage.Dispatched? || op.stage.Unsure?) && Fits(op.kind, op.stage) && v.at.Some?
    ensures var c, row, vm := op.stage.cmd, OpRowOf(op), VmRowOf(v);
            var o := Tried(answer == PowerUnavailable && c != ConfigureVm && c != ResizeDisk,
                           Reconcile(op, v, answer, stamp));
            if answer == PowerUnavailable && (c == CloneVm || c == StartVm) then o == Rollback
            else
              && o.Commit? && Fits(o.op.kind, o.op.stage) && o.op.updatedAt == stamp
              && if c == CloneVm && answer.power == Stopped && !answer.locked then
                   && OpRowOf(o.op) == row.(status := Pending, phase := Some("configure"), lastErrorCode := None,
                                            updatedAt := stamp)
                   && VmRowOf(o.vm) == vm.(status := VmProvisioning)
                 else if c == StartVm && answer.power == Power.Running && !answer.locked then
                   && OpRowOf(o.op) == row.(status := Succeeded, phase := Some("complete"), lastErrorCode := None,
                                            updatedAt := stamp)
                   && VmRowOf(o.vm) == vm.(status := VmRunning)
                 else
                   && VmRowOf(o.vm) == vm
                   && OpRowOf(o.op) == row.(
                        phase := Some(if c == ConfigureVm || c == ResizeDisk then ParkedText(c)
                                      else UnsureText(Create, c)),
                        lastErrorCode := OUTCOME_UNKNOWN, updatedAt := stamp)
  {
    hide DispatchText, UnsureText, ParkedText, PollText;
  }

  /** The body of `reconcile_create_vm_operation` after its guards. */
  method ReconcileCreateMarker(operation: Operation, vm: VirtualMachine, answer: PowerAnswer, stamp: Time,
                               ghost c: Command, ghost op: Op, ghost v: Vm)
    returns (raised: bool)
    requires Uses(Create, c) && operation.status == Processing && operation.providerTaskId == None && Placed(vm.Row())
    requires operation.phase == Some(DispatchText(Create, c)) || operation.phase == Some(UnsureText(Create, c))
    modifies operation, vm
    ensures raised ==> unchanged(operation) && unchanged(vm)
    ensures old(operation.Shows(op) && vm.Shows(v)) && op.kind == Create
            && (op.stage == Dispatched(c) || op.stage == Unsure(c)) ==>
              Realises(Tried(answer == PowerUnavailable && c != ConfigureVm && c != ResizeDisk,
                             Reconcile(op, v, answer, stamp)),
                       raised, old(operation.Row()), operation.Row(), vm.Row())
  {
    hide DispatchText, UnsureText, ParkedText, Reconcile, Tried, OpRowOf, PhaseText, Fits;
    raised := true;
    ghost var known := operation.Shows(op) && vm.Shows(v) && op.kind == Create
                       && (op.stage == Dispatched(c) || op.stage == Unsure(c));
    if known { CreateReconciled(op, v, answer, stamp); }
    var clone, start := StepOf(operation.phase.value, c);
    if (clone || start) && answer == PowerUnavailable { return; }
    if || (clone && answer.power == Stopped && !answer.locked)
       || (start && answer.power == Power.Running && !answer.locked)
    {
      ConfirmFromPower(operation, vm, clone);
    } else {
      LeaveUnconfirmed(operation, stamp, c);
    }
    raised := false;
  }

  method ReconcileCreateVmOperation(operation: Operation, vm: VirtualMachine, answer: PowerAnswer, stamp: Time,
                                    ghost op: Op, ghost v: Vm)
    returns (raised: bool)
    modifies operation, vm
    ensures raised ==> unchanged(operation) && unchanged(vm)
    ensures operation.operationType != Create ==> raised
    ensures old(operation.status != Processing || operation.providerTaskId != None) ==> raised
    ensures old(operation.Shows(op) && vm.Shows(v)) && op.kind == Create && v.at.Some?
              && (op.stage.Dispatched? || op.stage.Unsure?) ==>
              Realises(Tried(answer == PowerUnavailable && op.stage.cmd != ConfigureVm && op.stage.cmd != ResizeDisk,
                             Reconcile(op, v, answer, stamp)),
                       raised, old(operation.Row()), operation.Row(), vm.Row())
  {
    hide InCreatePhases;
    raised := true;
    ghost var known := operation.Shows(op) && op.kind == Create && (op.stage.Dispatched? || op.stage.Unsure?);
    if known { assert IsCreateMarker(operation.phase.value); }
    if operation.phase != None { CreateMarkersSpelled(operation.phase.value); }
    if || operation.operationType != Create || operation.status != Processing
       || operation.providerTaskId != None || operation.phase == None
       || !InCreatePhases(operation.phase.value)
       || vm.providerNode == None || vm.providerVmid == None
    {
      return;
    }
    ghost var phase := operation.phase.value;
    ghost var c: Command :| Uses(Create, c) && (phase == DispatchText(Create, c) || phase == UnsureText(Create, c));
    if known { MarkerNamesStep(c, op.stage.cmd, operation.phase.value); }
    raised := ReconcileCreateMarker(operation, vm, answer, stamp, c, op, v);
  }

  /** A marker names one step. */
  lemma MarkerNamesStep(c: Command, d: Command, text: string)
    requires Uses(Create, c) && (text == DispatchText(Create, c) || text == UnsureText(Create, c))
    requires Uses(Create, d) && (text == DispatchText(Create, d) || text == UnsureText(Create, d))
    ensures c == d
  {
    MarkersDiffer(Create, c, d);
    FirstLetters(Create, c);
    FirstLetters(Create, d);
  }

  /** The success branch of `refresh_create_vm_operation`: on to the next create step. */
  method AdvanceCreate(operation: Operation, vm: VirtualMachine, ghost c: Command) returns (raised: bool)
    modifies operation, vm
    ensures raised ==> unchanged(operation) && unchanged(vm)
    ensures Uses(Create, c) && old(operation.phase) == Some(CommandText(c)) ==>
              && !raised
              && operation.Row() == old(operation.Row()).(status := StatusOf(NextStage(Create, c)),
                                                          phase := PhaseText(Create, NextStage(Create, c)))
              && vm.Row() == if c == StartVm then old(vm.Row()).(status := VmRunning) else old(vm.Row())
  {
    hide DispatchText, UnsureText, ParkedText, PollText;
    raised := true;
    if operation.phase == Some("clone") {
      operation.phase := Some("configure");
      operation.status := Pending;
    } else if operation.phase == Some("configure") {
      operation.phase := Some("resize");
      operation.status := Pending;
    } else if operation.phase == Some("resize") {
      operation.phase := Some("start");
      operation.status := Pending;
    } else if operation.phase == Some("start") {
      operation.phase := Some("complete");
      operation.status := Succeeded;
      vm.status := VmRunning;
    } else {
      return;
    }
    raised := false;
  }

  method RefreshCreateVmOperation(operation: Operation, vm: VirtualMachine, answer: TaskAnswer, stamp: Time,
                                  ghost op: Op, ghost v: Vm)
    returns (raised: bool)
    modifies operation, vm
    ensures raised ==> unchanged(operation) && unchanged(vm)
    ensures operation.operationType != Create ==> raised
    ensures old(operation.status != Processing || operation.providerTaskId == None) ==> raised
    ensures old(operation.Shows(op) && vm.Shows(v)) && op.kind == Create && v.at.Some?
              && op.stage.Awaiting? && !op.stage.slow ==>
              Realises(Tried(answer == TaskUnavailable, Poll(op, v, answer, stamp)),
                       raised, old(operation.Row()), operation.Row(), vm.Row())
  {
    hide DispatchText, UnsureText, ParkedText;
    raised := true;
    if || operation.operationType != Create || operation.status != Processing || operation.providerTaskId == None
       || vm.providerVmid == None || vm.providerNode == None || answer == TaskUnavailable
    {
      return;
    }
    match answer {
    case TaskRunning =>
      operation.lastErrorCode := None;
      operation.updatedAt := stamp;
    case TaskSucceeded =>
      raised := AdvanceCreate(operation, vm, if op.stage.Done? then CloneVm else op.stage.cmd);
      if raised { return; }
      operation.providerTaskId := None;
      operation.lastErrorCode := None;
    case TaskFailed(code) =>
      operation.status := OpStatus.Failed;
      operation.lastErrorCode := TaskError(code);
      vm.status := VmFailed;
    }
    raised := false;
  }

  // ---- start ----

  method PrepareStartVmDispatch(operation: Operation, vm: VirtualMachine, stamp: Time, ghost op: Op, ghost v: Vm)
    returns (raised: bool, target: Placement)
    modifies operation
    ensures raised ==> unchanged(operation)
    ensures raised <==>
            !(&& operation.operationType == Start && old(operation.status) == Pending
              && old(operation.providerTaskId) == None && Placed(vm.Row()))
    ensures !raised ==> target == Placement(vm.providerNode.value, vm.providerVmid.value)
    ensures old(operation.Shows(op)) && vm.Shows(v) && op.kind == Start ==>
              Realises(Mark(op, v, stamp), raised, old(operation.Row()), operation.Row(), vm.Row())
  {
    raised, target := true, Placement("", 0);
    if operation.operationType != Start || operation.status != Pending { return; }
    if operation.providerTaskId != None { return; }
    if vm.providerNode == None || vm.providerVmid == None { return; }
    operation.status := Processing;
    operation.phase := Some("dispatching");
    operation.attempts := operation.attempts + 1;
    operation.updatedAt := stamp;
    raised := false;
    target := Placement(vm.providerNode.value, vm.providerVmid.value);
  }

  method FinishStartVmDispatch(operation: Operation, vm: VirtualMachine, task: Option<ProviderTask>,
                               stamp: Time, ghost op: Op, ghost v: Vm)
    returns (raised: bool)
    modifies operation, vm
    ensures raised ==> unchanged(operation) && unchanged(vm)
    ensures old(operation.operationType != Start || operation.phase != Some("dispatching")) ==> raised
    ensures old(operation.Shows(op) && vm.Shows(v)) && op.kind == Start ==>
              Realises(Settle(op, v, StartVm, if task.None? then NoTask else TaskResult(task.value), stamp),
                       raised, old(operation.Row()), operation.Row(), vm.Row())
  {
    raised := true;
    if operation.Shows(op) && op.kind == Start { MarkerShowsDispatch(operation.Row(), op, StartVm); }
    if || operation.operationType != Start || operation.phase != Some("dispatching")
       || operation.status != Processing || operation.providerTaskId != None
       || vm.providerNode == None || vm.providerVmid == None
    {
      return;
    }
    if task == None {
      operation.status := Succeeded;
      operation.phase := Some("complete");
      operation.lastErrorCode := None;
      vm.status := VmRunning;
      return false;
    }
    if task.value.at.node != vm.providerNode.value || task.value.at.vmid != vm.providerVmid.value { return; }
    operation.providerTaskId := Some(task.value.id);
    operation.phase := Some("await_task");
    operation.lastErrorCode := None;
    raised := false;
  }

  method ReconcileStartVmOperation(operation: Operation, vm: VirtualMachine, answer: PowerAnswer, stamp: Time,
                                   ghost op: Op, ghost v: Vm)
    returns (raised: bool)
    modifies operation, vm
    ensures raised ==> unchanged(operation) && unchanged(vm)
    ensures old(operation.operationType != Start || operation.phase !in {Some("dispatching"), Some("reconcile")}) ==>
              raised
    ensures old(operation.Shows(op) && vm.Shows(v)) && op.kind == Start && v.at.Some?
              && (op.stage.Dispatched? || op.stage.Unsure?) ==>
              Realises(Tried(answer == PowerUnavailable, Reconcile(op, v, answer, stamp)),
                       raised, old(operation.Row()), operation.Row(), vm.Row())
  {
    raised := true;
    if operation.operationType != Start || operation.status != Processing { return; }
    if operation.phase !in {Some("dispatching"), Some("reconcile")} { return; }
    if operation.providerTaskId != None || vm.providerNode == None || vm.providerVmid == None { return; }
    if answer == PowerUnavailable { return; }
    if answer.power == Power.Running && !answer.locked {
      operation.status := Succeeded;
      operation.phase := Some("complete");
      operation.lastErrorCode := None;
      vm.status := VmRunning;
      return false;
    }
    operation.phase := Some("reconcile");
    operation.lastErrorCode := Some("provider_outcome_unknown");
    operation.updatedAt := stamp;
    raised := false;
  }

  /** The rows a poll leaves, in terms of the row it found: with the same stage nothing but the error and the time may
      differ, a failure keeps phase and task, and success gives the next stage's row. */
  lemma PollRows(op: Op, v: Vm, answer: TaskAnswer, stamp: Time)
    requires Fits(op.kind, op.stage) && op.stage.Awaiting? && v.at.Some? && answer != TaskUnavailable
    ensures var o, row := Poll(op, v, answer, stamp), OpRowOf(op);
            && o.Commit? && Fits(o.op.kind, o.op.stage) && o.op.updatedAt == stamp
            && match answer
               case TaskRunning =>
                 && OpRowOf(o.op) == row.(phase := PhaseText(op.kind, o.op.stage), lastErrorCode := o.op.error,
                                          updatedAt := stamp)
                 && VmRowOf(o.vm) == VmRowOf(v)
               case TaskSucceeded =>
                 && OpRowOf(o.op) == row.(status := StatusOf(NextStage(op.kind, op.stage.cmd)),
                                          phase := PhaseText(op.kind, NextStage(op.kind, op.stage.cmd)),
                                          lastErrorCode := None, providerTaskId := None, updatedAt := stamp)
                 && VmRowOf(o.vm) == if op.stage.cmd == CloneVm then VmRowOf(v)
                                     else VmRowOf(v).(status := ConfirmedStatus(op.stage.cmd, v.status))
               case TaskFailed(code) =>
                 && OpRowOf(o.op) == row.(status := OpStatus.Failed, phase := PhaseText(op.kind, o.op.stage),
                                          lastErrorCode := TaskError(code), updatedAt := stamp)
                 && VmRowOf(o.vm) == (match op.kind
                                      case Create => VmRowOf(v).(status := VmFailed)
                                      case Delete => VmRowOf(v).(status := VmDeleting)
                                      case _ => VmRowOf(v))
  {
    hide PhaseText, TaskError;
    NextHasNoTask(op.kind, op.stage.cmd);
  }

  /** What the guards of a poll see of a row that waits for a task. */
  lemma AwaitingRow(op: Op)
    requires op.stage.Awaiting?
    ensures OpRowOf(op).status == Processing && OpRowOf(op).providerTaskId == Some(op.stage.task)
    ensures OpRowOf(op).operationType == op.kind && OpRowOf(op).phase == PhaseText(op.kind, op.stage)
  {
    hide PhaseText;
  }

  lemma PlacedRowOf(v: Vm)
    requires v.at.Some?
    ensures Placed(VmRowOf(v))
  {}

  lemma NextHasNoTask(kind: Kind, c: Command)
    requires Uses(kind, c)
    ensures Fits(kind, NextStage(kind, c)) && TaskOf(NextStage(kind, c)) == None
  {}

  lemma StartPoll(op: Op, v: Vm, answer: TaskAnswer, stamp: Time)
    requires op.kind == Start && Fits(op.kind, op.stage) && op.stage.Awaiting? && v.at.Some?
    ensures answer != TaskUnavailable ==>
              var o, row := Poll(op, v, answer, stamp), OpRowOf(op);
              && o.Commit? && Fits(o.op.kind, o.op.stage) && o.op.updatedAt == stamp
              && match answer
                 case TaskRunning =>
                   && OpRowOf(o.op) == row.(phase := Some("await_task"), lastErrorCode := None, updatedAt := stamp)
                   && VmRowOf(o.vm) == VmRowOf(v)
                 case TaskSucceeded =>
                   && OpRowOf(o.op) == row.(status := Succeeded, phase := Some("complete"), lastErrorCode := None,
                                            providerTaskId := None, updatedAt := stamp)
                   && VmRowOf(o.vm) == VmRowOf(v).(status := VmRunning)
                 case TaskFailed(code) =>
                   && OpRowOf(o.op) == row.(status := OpStatus.Failed, lastErrorCode := TaskError(code),
                                            updatedAt := stamp)
                   && VmRowOf(o.vm) == VmRowOf(v)
  {
    hide OpRowOf, VmRowOf, TaskError;
    if answer != TaskUnavailable {
      PollRows(op, v, answer, stamp);
      AwaitingRow(op);
      RowError(op);
    }
  }

  lemma RowError(op: Op)
    ensures OpRowOf(op).lastErrorCode == op.error
  {
    hide PhaseText;
  }

  method ProcessStartVmOperation(operation: Operation, vm: VirtualMachine, answer: TaskAnswer, stamp: Time,
                                 ghost op: Op, ghost v: Vm)
    returns (raised: bool)
    modifies operation, vm
    ensures raised ==> unchanged(operation) && unchanged(vm)
    ensures operation.operationType != Start ==> raised
    ensures old(operation.status != Processing || operation.providerTaskId == None) ==> raised
    ensures old(operation.Shows(op) && vm.Shows(v)) && op.kind == Start && v.at.Some? && op.stage.Awaiting? ==>
              Realises(Tried(answer == TaskUnavailable, Poll(op, v, answer, stamp)),
                       raised, old(operation.Row()), operation.Row(), vm.Row())
  {
    hide OpRowOf, VmRowOf, Poll, TaskError, PhaseText, Fits;
    if operation.Shows(op) && vm.Shows(v) && op.kind == Start && v.at.Some? && op.stage.Awaiting? {
      AwaitingRow(op);
      PlacedRowOf(v);
      StartPoll(op, v, answer, stamp);
    }
    raised := true;
    if operation.operationType != Start || operation.status != Processing { return; }
    if vm.providerNode == None || vm.providerVmid == None || operation.providerTaskId == None { return; }
    match answer {
    case TaskUnavailable => return;
    case TaskRunning =>
      operation.phase := Some("await_task");
      operation.lastErrorCode := None;
      operation.updatedAt := stamp;
    case TaskSucceeded =>
      operation.status := Succeeded;
      operation.phase := Some("complete");
      operation.providerTaskId := None;
      operation.lastErrorCode := None;
      vm.status := VmRunning;
    case TaskFailed(code) =>
      operation.status := OpStatus.Failed;
      operation.lastErrorCode := TaskError(code);
    }
    raised := false;
  }

  // ---- shutdown, stop, reboot, delete ----

  predicate Lifecycle(kind: Kind) {
    kind == Shutdown || kind == Stop || kind == Reboot || kind == Delete
  }

  /** The command a pending lifecycle operation is to send next, if its kind and phase name one. */
  method LifecycleCommand(kind: Kind, phase: Option<string>, ghost stage: Stage) returns (command: Option<Command>)
    ensures command.Some? ==> Lifecycle(kind) && Uses(kind, command.value)
    ensures !Lifecycle(kind) ==> command == None
    ensures Lifecycle(kind) && stage.Queued? && Fits(kind, stage) && phase == PhaseText(kind, stage) ==>
              command == Some(stage.cmd)
  {
    hide DispatchText, UnsureText, PollText, ParkedText, TaskError;
    match kind {
      case Shutdown => command := Some(ShutdownVm);
      case Stop => command := Some(StopVm);
      case Delete => command := Some(DeleteVm);
      case Reboot =>
        command := if phase == Some("shutdown") then Some(ShutdownVm)
                   else if phase == Some("start") then Some(StartVm)
                   else None;
      case _ => command := None;
    }
  }

  method PrepareLifecycleDispatch(operation: Operation, vm: VirtualMachine, stamp: Time, ghost op: Op, ghost v: Vm)
    returns (raised: bool, command: Command, target: Placement)
    modifies operation, vm
    ensures raised ==> unchanged(operation) && unchanged(vm)
    ensures !raised ==> Placed(vm.Row()) && target == Placement(vm.providerNode.value, vm.providerVmid.value)
    ensures old(operation.status != Pending || operation.providerTaskId != None) ==> raised
    ensures !Lifecycle(operation.operationType) ==> raised
    ensures old(operation.Shows(op) && vm.Shows(v)) && Lifecycle(op.kind) ==>
              && Realises(Mark(op, v, stamp), raised, old(operation.Row()), operation.Row(), vm.Row())
              && (!raised ==> command == op.stage.cmd)
  {
    hide DispatchText, UnsureText, PollText, ParkedText, CommandText;
    raised, command, target := true, ShutdownVm, Placement("", 0);
    if operation.status != Pending || operation.providerTaskId != None { return; }
    var named := LifecycleCommand(operation.operationType, operation.phase, op.stage);
    if named == None { return; }
    command := named.value;
    if vm.providerNode == None || vm.providerVmid == None { return; }
    DispatchSpelling(operation.operationType, command);
    operation.status := Processing;
    var prefix := if operation.operationType == Reboot then "dispatch_reboot_" else "dispatch_";
    operation.phase := Some(prefix + CommandText(command));
    operation.attempts := operation.attempts + 1;
    operation.updatedAt := stamp;
    if command == DeleteVm { vm.status := VmDeleting; }
    raised := false;
    target := Placement(vm.providerNode.value, vm.providerVmid.value);
  }

  /** The task branch of `finish_lifecycle_dispatch`. For a reboot it needs a dispatch marker, and an unknown
      phase raises after the task id was assigned; for the other kinds it does not look at the phase. */
  method SaveLifecycleTask(operation: Operation, vm: VirtualMachine, task: ProviderTask, ghost c: Command)
    returns (raised: bool)
    requires Placed(vm.Row())
    modifies operation
    ensures task.at != Placement(vm.providerNode.value, vm.providerVmid.value) ==> raised
    ensures operation.operationType != Reboot && task.at == Placement(vm.providerNode.value, vm.providerVmid.value) ==>
              && !raised
              && operation.Row() == old(operation.Row()).(
                   providerTaskId := Some(task.id), lastErrorCode := None, phase := Some("await_task"))
    ensures operation.operationType == Reboot && Uses(Reboot, c)
            && old(operation.phase) == Some(DispatchText(Reboot, c))
              && task.at == Placement(vm.providerNode.value, vm.providerVmid.value) ==>
              && !raised
              && operation.Row() == old(operation.Row()).(
                   providerTaskId := Some(task.id), lastErrorCode := None, phase := Some(CommandText(c)))
    ensures operation.operationType == Reboot && Uses(Reboot, c)
            && old(operation.phase) == Some(UnsureText(Reboot, c)) ==>
              raised
  {
    raised := true;
    if task.at.node != vm.providerNode.value || task.at.vmid != vm.providerVmid.value { return; }
    operation.providerTaskId := Some(task.id);
    operation.lastErrorCode := None;
    if operation.operationType == Reboot {
      if operation.phase == Some("dispatch_reboot_shutdown") {
        operation.phase := Some("shutdown");
      } else if operation.phase == Some("dispatch_reboot_start") {
        operation.phase := Some("start");
      } else {
        return;
      }
    } else {
      operation.phase := Some("await_task");
    }
    raised := false;
  }

  /** What the no-task branch takes a phase for: a power-off that is done, a reboot's first half, or its second. */
  datatype Ending = Off | HalfWay | On | Unsupported

  method EndingOf(phase: Option<string>, ghost kind: Kind, ghost c: Command) returns (ending: Ending)
    ensures Lifecycle(kind) && kind != Delete && Uses(kind, c) && phase == Some(DispatchText(kind, c)) ==>
              ending == if kind != Reboot then Off else if c == ShutdownVm then HalfWay else On
    ensures Lifecycle(kind) && Uses(kind, c) && phase == Some(UnsureText(kind, c)) ==> ending == Unsupported
  {
    hide PollText, ParkedText, CommandText;
    if phase == Some("dispatch_shutdown") || phase == Some("dispatch_stop") { return Off; }
    if phase == Some("dispatch_reboot_shutdown") { return HalfWay; }
    if phase == Some("dispatch_reboot_start") { return On; }
    ending := Unsupported;
  }

  /** The no-task branch of `finish_lifecycle_dispatch`: the command was not needed or finished at once. */
  method FinishLifecycleNow(operation: Operation, vm: VirtualMachine, ghost c: Command)
    returns (raised: bool)
    requires operation.operationType != Delete
    modifies operation, vm
    ensures (&& Lifecycle(operation.operationType) && Uses(operation.operationType, c)
             && old(operation.phase) == Some(DispatchText(operation.operationType, c))) ==>
              && !raised
              && operation.Row() == old(operation.Row()).(
                   status := StatusOf(NextStage(operation.operationType, c)),
                   phase := PhaseText(operation.operationType, NextStage(operation.operationType, c)),
                   lastErrorCode := None)
              && vm.Row() == old(vm.Row()).(status := ConfirmedStatus(c, old(vm.status)))
    ensures (Lifecycle(operation.operationType) && Uses(operation.operationType, c)
             && old(operation.phase) == Some(UnsureText(operation.operationType, c))) ==> raised
  {
    hide DispatchText, UnsureText, PollText, ParkedText;
    var ending := EndingOf(operation.phase, operation.operationType, c);
    match ending {
      case Off =>
        operation.status := Succeeded;
        operation.phase := Some("complete");
        vm.status := VmStopped;
      case HalfWay =>
        operation.status := Pending;
        operation.phase := Some("start");
        vm.status := VmStopped;
      case On =>
        operation.status := Succeeded;
        operation.phase := Some("complete");
        vm.status := VmRunning;
      case Unsupported =>
        return true;
    }
    operation.lastErrorCode := None;
    raised := false;
  }

  lemma DeleteTexts()
    ensures DispatchText(Delete, DeleteVm) == "dispatch_delete"
    ensures UnsureText(Delete, DeleteVm) == "reconcile_delete"
    ensures PollText(Delete, DeleteVm, false) == "await_task"
  {}

  /** `Settle` for a delete, spelled out. */
  lemma SettleDelete(op: Op, v: Vm, sent: Command, result: CallResult, stamp: Time)
    requires op.kind == Delete && Fits(Delete, op.stage)
    ensures Settle(op, v, sent, result, stamp) ==
            if v.at.None? || op.stage != Dispatched(DeleteVm) || !result.DeleteResult? then Rollback
            else if result.deleteState == Submitted then
              if result.deleteTask.None? || result.deleteTask.value.at != v.at.value then Rollback
              else
                var task := result.deleteTask.value;
                Commit(op.(stage := Awaiting(DeleteVm, task.id, false), error := None, updatedAt := stamp), v)
            else if result.deleteTask.Some? then Rollback
            else if result.deleteState == AlreadyDone then
              Commit(op.(stage := Done, error := None, updatedAt := stamp), v.(status := VmDeleted))
            else Commit(op.(stage := Unsure(DeleteVm), error := OUTCOME_UNKNOWN, updatedAt := stamp), v)
  {}

  /** The delete branches of `finish_lifecycle_dispatch`. */
  method FinishDeleteDispatch(operation: Operation, vm: VirtualMachine, result: CallResult, stamp: Time,
                              ghost sent: Command, ghost op: Op, ghost v: Vm)
    returns (raised: bool)
    requires operation.operationType == Delete && operation.status == Processing
    requires operation.providerTaskId == None && Placed(vm.Row())
    modifies operation, vm
    ensures old(operation.Shows(op) && vm.Shows(v)) ==>
              Realises(Settle(op, v, sent, result, stamp), raised, old(operation.Row()), operation.Row(), vm.Row())
  {
    hide DispatchText, UnsureText, ParkedText, PollText, CommandText, Settle;
    DeleteTexts();
    raised := true;
    if operation.Shows(op) {
      MarkerShowsDispatch(operation.Row(), op, DeleteVm);
      SettleDelete(op, v, sent, result, stamp);
    }
    if operation.phase != Some("dispatch_delete") || !result.DeleteResult? { return; }
    if result.deleteState == AlreadyDone {
      if result.deleteTask != None { return; }
      operation.status := Succeeded;
      operation.phase := Some("complete");
      operation.lastErrorCode := None;
      vm.status := VmDeleted;
      return false;
    }
    if result.deleteState == InProgress {
      if result.deleteTask != None { return; }
      operation.phase := Some("reconcile_delete");
      operation.lastErrorCode := Some("provider_outcome_unknown");
      operation.updatedAt := stamp;
      return false;
    }
    if result.deleteTask == None { return; }
    var task := result.deleteTask.value;
    if task.at.node != vm.providerNode.value || task.at.vmid != vm.providerVmid.value { return; }
    operation.providerTaskId := Some(task.id);
    operation.lastErrorCode := None;
    operation.phase := Some("await_task");
    raised := false;
  }

  /** The shutdown, stop and reboot branches of `finish_lifecycle_dispatch`. */
  method FinishPowerDispatch(operation: Operation, vm: VirtualMachine, result: CallResult, stamp: Time,
                             ghost sent: Command, ghost op: Op, ghost v: Vm)
    returns (raised: bool)
    requires operation.operationType != Delete && operation.status == Processing
    requires operation.providerTaskId == None && Placed(vm.Row())
    modifies operation, vm
    ensures old(operation.Shows(op) && vm.Shows(v)) && Lifecycle(op.kind) ==>
              Realises(Settle(op, v, sent, result, stamp), raised, old(operation.Row()), operation.Row(), vm.Row())
  {
    hide DispatchText, UnsureText, ParkedText;
    ghost var c := if op.stage.Dispatched? || op.stage.Unsure? then op.stage.cmd else CloneVm;
    match result
    case NoTask => raised := FinishLifecycleNow(operation, vm, c);
    case TaskResult(task) => raised := SaveLifecycleTask(operation, vm, task, c);
    case _ => raised := true;
  }

  method FinishLifecycleDispatch(operation: Operation, vm: VirtualMachine, result: CallResult, stamp: Time,
                                 ghost sent: Command, ghost op: Op, ghost v: Vm)
    returns (raised: bool)
    modifies operation, vm
    ensures old(operation.status != Processing || operation.providerTaskId != None) ==> raised
    ensures old(operation.Shows(op) && vm.Shows(v)) && Lifecycle(op.kind) ==>
              Realises(Settle(op, v, sent, result, stamp), raised, old(operation.Row()), operation.Row(), vm.Row())
  {
    hide DispatchText, UnsureText, ParkedText, PollText;
    raised := true;
    if || operation.status != Processing || operation.providerTaskId != None
       || vm.providerNode == None || vm.providerVmid == None
    {
      return;
    }
    if operation.operationType == Delete {
      raised := FinishDeleteDispatch(operation, vm, result, stamp, sent, op, v);
    } else {
      raised := FinishPowerDispatch(operation, vm, result, stamp, sent, op, v);
    }
  }

  /** A dispatch or reconcile marker of a lifecycle command. */
  predicate IsLifecycleMarker(s: string, k: Kind, c: Command) {
    Lifecycle(k) && Uses(k, c) && (s == DispatchText(k, c) || s == UnsureText(k, c))
  }

  lemma ShownMarker(row: OpRow, op: Op)
    requires ShowsOp(row, op) && Lifecycle(op.kind) && (op.stage.Dispatched? || op.stage.Unsure?)
    ensures row.phase.Some? && IsLifecycleMarker(row.phase.value, op.kind, op.stage.cmd)
  {}

  /** The phases `reconcile_lifecycle_operation` accepts. */
  predicate InLifecyclePhases(s: string) {
    || s == "dispatch_shutdown" || s == "reconcile_shutdown"
    || s == "dispatch_stop" || s == "reconcile_stop"
    || s == "dispatch_delete" || s == "reconcile_delete"
    || s == "dispatch_reboot_shutdown" || s == "reconcile_reboot_shutdown"
    || s == "dispatch_reboot_start" || s == "reconcile_reboot_start"
  }

  /** The accepted phases are the markers of the lifecycle commands. */
  lemma LifecycleMarkersSpelled(s: string)
    ensures InLifecyclePhases(s) <==> exists k, c :: IsLifecycleMarker(s, k, c)
  {
    assert IsLifecycleMarker("dispatch_shutdown", Shutdown, ShutdownVm);
    assert IsLifecycleMarker("reconcile_shutdown", Shutdown, ShutdownVm);
    assert IsLifecycleMarker("dispatch_stop", Stop, StopVm);
    assert IsLifecycleMarker("reconcile_stop", Stop, StopVm);
    assert IsLifecycleMarker("dispatch_delete", Delete, DeleteVm);
    assert IsLifecycleMarker("reconcile_delete", Delete, DeleteVm);
    assert IsLifecycleMarker("dispatch_reboot_shutdown", Reboot, ShutdownVm);
    assert IsLifecycleMarker("reconcile_reboot_shutdown", Reboot, ShutdownVm);
    assert IsLifecycleMarker("dispatch_reboot_start", Reboot, StartVm);
    assert IsLifecycleMarker("reconcile_reboot_start", Reboot, StartVm);
  }

  lemma LifecycleMarkerIsUnique(s: string, k: Kind, c: Command, k': Kind, c': Command)
    requires IsLifecycleMarker(s, k, c) && IsLifecycleMarker(s, k', c')
    ensures k == k' && c == c'
  {
    FirstLetters(k, c);
    FirstLetters(k', c');
  }

  /** The provider state a lifecycle marker waits for. */
  datatype Aim = Gone | PoweredOff | PoweredOffForStart | PoweredOn

  function AimFor(k: Kind, c: Command): Aim {
    if c == DeleteVm then Gone
    else if c == StartVm then PoweredOn
    else if k == Reboot then PoweredOffForStart else PoweredOff
  }

  predicate Reached(aim: Aim, power: Power, locked: bool) {
    match aim
    case Gone => power == Missing
    case PoweredOn => power == Power.Running && !locked
    case _ => power == Stopped && !locked
  }

  function AimStatus(aim: Aim): VmStatus {
    match aim case Gone => VmDeleted case PoweredOn => VmRunning case _ => VmStopped
  }

  /** `Reconcile` for a lifecycle operation, by the state its marker waits for. */
  lemma ReconcileByAim(op: Op, v: Vm, answer: PowerAnswer, stamp: Time)
    requires Lifecycle(op.kind) && Fits(op.kind, op.stage) && (op.stage.Dispatched? || op.stage.Unsure?)
    requires v.at.Some? && answer.PowerIs?
    ensures var aim := AimFor(op.kind, op.stage.cmd);
            Reconcile(op, v, answer, stamp) ==
            if Reached(aim, answer.power, answer.locked) then
              Commit(op.(stage := if aim == PoweredOffForStart then Queued(StartVm) else Done,
                         error := None, updatedAt := stamp),
                     v.(status := AimStatus(aim)))
            else Commit(op.(stage := Unsure(op.stage.cmd), error := OUTCOME_UNKNOWN, updatedAt := stamp), v)
  {}

  method AimOf(phase: string, ghost k: Kind, ghost c: Command) returns (aim: Aim)
    requires IsLifecycleMarker(phase, k, c)
    ensures aim == AimFor(k, c)
  {
    FirstLetters(k, c);
    if phase == "dispatch_delete" || phase == "reconcile_delete" {
      aim := Gone;
    } else if || phase == "dispatch_shutdown" || phase == "reconcile_shutdown"
              || phase == "dispatch_stop" || phase == "reconcile_stop" {
      aim := PoweredOff;
    } else if phase == "dispatch_reboot_shutdown" || phase == "reconcile_reboot_shutdown" {
      aim := PoweredOffForStart;
    } else {
      aim := PoweredOn;
    }
  }

  /** The body of `reconcile_lifecycle_operation` after its guards. */
  method ReconcileLifecycleMarker(operation: Operation, vm: VirtualMachine, answer: PowerAnswer, stamp: Time,
                                  ghost k: Kind, ghost c: Command)
    requires operation.phase.Some? && IsLifecycleMarker(operation.phase.value, k, c)
    requires answer.PowerIs?
    modifies operation, vm
    ensures var aim := AimFor(k, c);
            if Reached(aim, answer.power, answer.locked) then
              && operation.Row() == old(operation.Row()).(
                   status := if aim == PoweredOffForStart then Pending else Succeeded,
                   phase := Some(if aim == PoweredOffForStart then "start" else "complete"), lastErrorCode := None)
              && vm.Row() == old(vm.Row()).(status := AimStatus(aim))
            else
              && operation.Row() == old(operation.Row()).(
                   phase := Some(UnsureText(k, c)), lastErrorCode := OUTCOME_UNKNOWN, updatedAt := stamp)
              && vm.Row() == old(vm.Row())
  {
    var phase := operation.phase.value;
    var aim := AimOf(phase, k, c);
    if Reached(aim, answer.power, answer.locked) {
      operation.status := if aim == PoweredOffForStart then Pending else Succeeded;
      operation.phase := Some(if aim == PoweredOffForStart then "start" else "complete");
      operation.lastErrorCode := None;
      vm.status := AimStatus(aim);
    } else {
      DispatchToReconcile(k, c);
      operation.phase := Some(ReplaceFirst(phase, "dispatch_", "reconcile_"));
      operation.lastErrorCode := Some("provider_outcome_unknown");
      operation.updatedAt := stamp;
    }
  }

  method ReconcileLifecycleOperation(operation: Operation, vm: VirtualMachine, answer: PowerAnswer, stamp: Time,
                                     ghost op: Op, ghost v: Vm)
    returns (raised: bool)
    modifies operation, vm
    ensures raised ==> unchanged(operation) && unchanged(vm)
    ensures old(operation.status != Processing || operation.providerTaskId != None) ==> raised
    ensures old(operation.Shows(op) && vm.Shows(v)) && Lifecycle(op.kind) && v.at.Some?
              && (op.stage.Dispatched? || op.stage.Unsure?) ==>
              Realises(Tried(answer == PowerUnavailable, Reconcile(op, v, answer, stamp)),
                       raised, old(operation.Row()), operation.Row(), vm.Row())
  {
    hide DispatchText, UnsureText, PollText, ParkedText, Reconcile, Reached, AimStatus, IsLifecycleMarker,
      InLifecyclePhases;
    raised := true;
    ghost var known := operation.Shows(op) && Lifecycle(op.kind) && (op.stage.Dispatched? || op.stage.Unsure?);
    if known { ShownMarker(operation.Row(), op); }
    if operation.phase != None { LifecycleMarkersSpelled(operation.phase.value); }
    if || operation.status != Processing || operation.providerTaskId != None || operation.phase == None
       || !InLifecyclePhases(operation.phase.value)
       || vm.providerNode == None || vm.providerVmid == None || answer == PowerUnavailable
    {
      return;
    }
    ghost var k: Kind, c: Command :| IsLifecycleMarker(operation.phase.value, k, c);
    if known { LifecycleMarkerIsUnique(operation.phase.value, k, c, op.kind, op.stage.cmd); }
    if known && vm.Shows(v) { ReconcileByAim(op, v, answer, stamp); }
    ReconcileLifecycleMarker(operation, vm, answer, stamp, k, c);
    raised := false;
  }

  lemma PowerOffPoll(op: Op, v: Vm, answer: TaskAnswer, stamp: Time)
    requires (op.kind == Shutdown || op.kind == Stop) && Fits(op.kind, op.stage) && op.stage.Awaiting? && v.at.Some?
    ensures answer != TaskUnavailable ==>
              var o, row := Poll(op, v, answer, stamp), OpRowOf(op);
              && o.Commit? && Fits(o.op.kind, o.op.stage) && o.op.updatedAt == stamp
              && match answer
                 case TaskRunning => OpRowOf(o.op) == row.(updatedAt := stamp) && VmRowOf(o.vm) == VmRowOf(v)
                 case TaskSucceeded =>
                   && OpRowOf(o.op) == row.(status := Succeeded, phase := Some("complete"), lastErrorCode := None,
                                            providerTaskId := None, updatedAt := stamp)
                   && VmRowOf(o.vm) == VmRowOf(v).(status := VmStopped)
                 case TaskFailed(code) =>
                   && OpRowOf(o.op) == row.(status := OpStatus.Failed, lastErrorCode := TaskError(code),
                                            updatedAt := stamp)
                   && VmRowOf(o.vm) == VmRowOf(v)
  {
    hide OpRowOf, VmRowOf, TaskError;
    if answer != TaskUnavailable {
      PollRows(op, v, answer, stamp);
      AwaitingRow(op);
      RowError(op);
    }
  }

  /** The processing branch of `process_power_off_vm_operation`. */
  method PollPowerOff(operation: Operation, vm: VirtualMachine, answer: TaskAnswer, stamp: Time, ghost op: Op,
                      ghost v: Vm)
    returns (raised: bool)
    modifies operation, vm
    ensures raised ==> unchanged(operation) && unchanged(vm)
    ensures old(operation.status != Processing || operation.providerTaskId == None) ==> raised
    ensures old(operation.Shows(op) && vm.Shows(v)) && (op.kind == Shutdown || op.kind == Stop) && v.at.Some?
            && op.stage.Awaiting? ==>
              Realises(Tried(answer == TaskUnavailable, Poll(op, v, answer, stamp)),
                       raised, old(operation.Row()), operation.Row(), vm.Row())
  {
    hide OpRowOf, VmRowOf, Poll, TaskError, PhaseText, Fits;
    if && operation.Shows(op) && vm.Shows(v) && (op.kind == Shutdown || op.kind == Stop) && v.at.Some?
       && op.stage.Awaiting?
    {
      AwaitingRow(op);
      PlacedRowOf(v);
      PowerOffPoll(op, v, answer, stamp);
    }
    raised := true;
    if operation.operationType != Shutdown && operation.operationType != Stop { return; }
    if operation.status != Processing || operation.providerTaskId == None { return; }
    if vm.providerNode == None || vm.providerVmid == None { return; }
    match answer {
    case TaskUnavailable => return;
    case TaskRunning =>
      operation.updatedAt := stamp;
    case TaskSucceeded =>
      operation.status := Succeeded;
      operation.phase := Some("complete");
      operation.providerTaskId := None;
      operation.lastErrorCode := None;
      vm.status := VmStopped;
    case TaskFailed(code) =>
      operation.status := OpStatus.Failed;
      operation.lastErrorCode := TaskError(code);
    }
    raised := false;
  }

  lemma RebootPoll(op: Op, v: Vm, answer: TaskAnswer, stamp: Time)
    requires op.kind == Reboot && Fits(op.kind, op.stage) && op.stage.Awaiting? && !op.stage.slow && v.at.Some?
    ensures PhaseText(op.kind, op.stage) == Some(if op.stage.cmd == ShutdownVm then "shutdown" else "start")
    ensures answer != TaskUnavailable ==>
              var o, row, first := Poll(op, v, answer, stamp), OpRowOf(op), op.stage.cmd == ShutdownVm;
              && o.Commit? && Fits(o.op.kind, o.op.stage) && o.op.updatedAt == stamp
              && match answer
                 case TaskRunning => OpRowOf(o.op) == row.(updatedAt := stamp) && VmRowOf(o.vm) == VmRowOf(v)
                 case TaskSucceeded =>
                   && OpRowOf(o.op) == row.(status := if first then Pending else Succeeded,
                                            phase := Some(if first then "start" else "complete"), lastErrorCode := None,
                                            providerTaskId := None, updatedAt := stamp)
                   && VmRowOf(o.vm) == VmRowOf(v).(status := if first then VmStopped else VmRunning)
                 case TaskFailed(code) =>
                   && OpRowOf(o.op) == row.(status := OpStatus.Failed, lastErrorCode := TaskError(code),
                                            updatedAt := stamp)
                   && VmRowOf(o.vm) == VmRowOf(v)
  {
    hide OpRowOf, VmRowOf, TaskError;
    if answer != TaskUnavailable {
      PollRows(op, v, answer, stamp);
      AwaitingRow(op);
      RowError(op);
    }
  }

  /** The processing branch of `process_reboot_vm_operation`. */
  method PollReboot(operation: Operation, vm: VirtualMachine, answer: TaskAnswer, stamp: Time, ghost op: Op,
                    ghost v: Vm)
    returns (raised: bool)
    modifies operation, vm
    ensures raised ==> unchanged(operation) && unchanged(vm)
    ensures old(operation.status != Processing || operation.providerTaskId == None) ==> raised
    ensures old(operation.phase != Some("shutdown") && operation.phase != Some("start")) ==> raised
    ensures old(operation.Shows(op) && vm.Shows(v)) && op.kind == Reboot && v.at.Some? && op.stage.Awaiting?
            && !op.stage.slow ==>
              Realises(Tried(answer == TaskUnavailable, Poll(op, v, answer, stamp)),
                       raised, old(operation.Row()), operation.Row(), vm.Row())
  {
    hide OpRowOf, VmRowOf, Poll, TaskError, PhaseText, Fits;
    if && operation.Shows(op) && vm.Shows(v) && op.kind == Reboot && v.at.Some? && op.stage.Awaiting?
       && !op.stage.slow
    {
      AwaitingRow(op);
      PlacedRowOf(v);
      RebootPoll(op, v, answer, stamp);
    }
    raised := true;
    if operation.operationType != Reboot || operation.status != Processing { return; }
    if operation.phase != Some("shutdown") && operation.phase != Some("start") { return; }
    if vm.providerNode == None || vm.providerVmid == None || operation.providerTaskId == None { return; }
    match answer {
    case TaskUnavailable => return;
    case TaskRunning =>
      operation.updatedAt := stamp;
    case TaskSucceeded =>
      operation.providerTaskId := None;
      operation.lastErrorCode := None;
      if operation.phase == Some("shutdown") {
        operation.phase := Some("start");
        operation.status := Pending;
        vm.status := VmStopped;
      } else {
        operation.status := Succeeded;
        operation.phase := Some("complete");
        vm.status := VmRunning;
      }
    case TaskFailed(code) =>
      operation.status := OpStatus.Failed;
      operation.lastErrorCode := TaskError(code);
    }
    raised := false;
  }

  /** The processing branch of `process_delete_vm_operation`. */
  method PollDelete(operation: Operation, vm: VirtualMachine, answer: TaskAnswer, stamp: Time, ghost op: Op,
                    ghost v: Vm)
    returns (raised: bool)
    modifies operation, vm
    ensures raised ==> unchanged(operation) && unchanged(vm)
    ensures operation.operationType != Delete ==> raised
    ensures old(operation.status != Processing || operation.providerTaskId == None) ==> raised
    ensures old(operation.Shows(op) && vm.Shows(v)) && op.kind == Delete && v.at.Some? && op.stage.Awaiting? ==>
              Realises(Tried(answer == TaskUnavailable, Poll(op, v, answer, stamp)),
                       raised, old(operation.Row()), operation.Row(), vm.Row())
  {
    hide DispatchText, UnsureText, ParkedText;
    raised := true;
    if operation.operationType != Delete || operation.status != Processing { return; }
    if vm.providerNode == None || vm.providerVmid == None || operation.providerTaskId == None { return; }
    match answer {
    case TaskUnavailable => return;
    case TaskRunning =>
      operation.updatedAt := stamp;
    case TaskSucceeded =>
      operation.status := Succeeded;
      operation.phase := Some("complete");
      operation.providerTaskId := None;
      operation.lastErrorCode := None;
      vm.status := VmDeleted;
    case TaskFailed(code) =>
      operation.status := OpStatus.Failed;
      operation.lastErrorCode := TaskError(code);
      vm.status := VmDeleting;
    }
    raised := false;
  }
}
