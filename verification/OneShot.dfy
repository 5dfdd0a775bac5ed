/** The older one-shot handlers, which call the provider inside their transaction, and their simulation by the
    two-transaction protocol. */
module OneShot {
  import opened Domain
  import opened Phases
  import opened Transitions
  import opened Evolution
  import opened Rows
  import opened OperationServices

  // ---- typed meaning ----

  /** What the pending branch of a one-shot handler does with what its call returned. */
  function Direct(op: Op, vm: Vm, result: CallResult, stamp: Time): Outcome {
    if !op.stage.Queued? || vm.at.None? then Rollback
    else
      var c := op.stage.cmd;
      match ReadResult(c, result)
      case Invalid => Rollback
      case Unfinished => Commit(op.(updatedAt := stamp), vm.(status := Accepted(c, vm.status)))
      case Finished =>
        Commit(op.(stage := NextStage(op.kind, c),
                   error := if KeepsError(op.kind, c) then op.error else None, updatedAt := stamp),
               vm.(status := ConfirmedStatus(c, vm.status)))
      case Working(t) =>
        if t.at != vm.at.value && !(op.kind == Create && c != CloneVm) then Rollback
        else
          Commit(op.(stage := Awaiting(c, t.id, false),
                     attempts := op.attempts + (if op.kind == Create then 0 else 1), updatedAt := stamp),
                 vm.(status := Accepted(c, vm.status)))
  }

  /** The VM status once the provider has taken a command on. */
  function Accepted(c: Command, status: VmStatus): VmStatus {
    if c == CloneVm then VmProvisioning else if c == DeleteVm then VmDeleting else status
  }

  /** Steps whose immediate completion leaves the last error in place. */
  predicate KeepsError(kind: Kind, c: Command) {
    c == ConfigureVm || c == ResizeDisk || (kind == Reboot && c == ShutdownVm)
  }

  /** The row a one-shot handler stores: a kind with one command never has a phase before it is complete. */
  function DirectRowOf(op: Op): OpRow {
    var shown := op.stage.Done? || op.kind == Create || op.kind == Reboot;
    OpRowOf(op).(phase := if shown then PhaseText(op.kind, op.stage) else None)
  }

  ghost predicate ShowsDirect(operation: Operation, op: Op)
    reads operation
  {
    Fits(op.kind, op.stage) && operation.Row() == DirectRowOf(op)
  }

  ghost predicate Carries(o: Outcome, raised: bool, before: OpRow, after: OpRow, vmAfter: VmRow) {
    && (raised <==> o.Rollback?)
    && (o.Commit? ==> Flushed(before, after, o.op.updatedAt) == DirectRowOf(o.op) && vmAfter == VmRowOf(o.vm))
  }

  // ---- the handlers ----

  /** What `start_create_vm_operation` demands of its rows. */
  predicate ReadyToClone(row: OpRow, vm: VmRow, keys: map<nat, SshKey>) {
    && row.operationType == Create && row.status == Pending && row.providerTaskId == None && row.phase == Some("clone")
    && KeyUsable(vm, keys)
    && (vm.providerNode.Some? <==> vm.providerVmid.Some?)
  }

  /** `start_create_vm_operation`: the first pass saves a target and nothing else, the second clones to it. */
  method StartCreate(operation: Operation, vm: VirtualMachine, keys: map<nat, SshKey>, target: TargetAnswer,
                     result: CallResult, stamp: Time, ghost op: Op, ghost v: Vm)
    returns (raised: bool)
    modifies operation, vm
    ensures raised ==> unchanged(operation) && unchanged(vm)
    ensures !old(ReadyToClone(operation.Row(), vm.Row(), keys)) ==> raised
    ensures old(ReadyToClone(operation.Row(), vm.Row(), keys) && vm.providerNode == None) ==>
              && (raised <==> target == TargetUnavailable) && unchanged(operation)
              && (!raised ==>
                    vm.Row() == old(vm.Row()).(providerNode := Some(target.at.node),
                                               providerVmid := Some(target.at.vmid)))
    ensures (&& old(ShowsDirect(operation, op) && vm.Shows(v) && KeyUsable(vm.Row(), keys))
             && v.at.Some? && op.kind == Create && op.stage == Queued(CloneVm)) ==>
              Carries(Direct(op, v, result, stamp), raised, old(operation.Row()), operation.Row(), vm.Row())
  {
    raised := true;
    if operation.operationType != Create || operation.status != Pending || operation.providerTaskId != None { return; }
    if operation.phase != Some("clone") || !KeyUsable(vm.Row(), keys) { return; }
    if (vm.providerNode == None) != (vm.providerVmid == None) { return; }
    if vm.providerNode == None {
      if target == TargetUnavailable { return; }
      vm.providerNode := Some(target.at.node);
      vm.providerVmid := Some(target.at.vmid);
      return false;
    }
    raised := StoreClone(operation, vm, result, stamp, op, v);
  }

  /** The end of `start_create_vm_operation`, on what the clone call returned. */
  method StoreClone(operation: Operation, vm: VirtualMachine, result: CallResult, stamp: Time, ghost op: Op,
                    ghost v: Vm)
    returns (raised: bool)
    requires operation.status == Pending && operation.providerTaskId == None && operation.phase == Some("clone")
    requires Placed(vm.Row())
    modifies operation, vm
    ensures raised ==> unchanged(operation) && unchanged(vm)
    ensures old(ShowsDirect(operation, op) && vm.Shows(v)) && op.kind == Create && op.stage == Queued(CloneVm) ==>
              Carries(Direct(op, v, result, stamp), raised, old(operation.Row()), operation.Row(), vm.Row())
  {
    raised := true;
    if !result.CloneResult? { return; }
    match result.state {
      case Submitted =>
        if result.cloneTask == None { return; }
        var task := result.cloneTask.value;
        if task.at.node != vm.providerNode.value || task.at.vmid != vm.providerVmid.value { return; }
        operation.providerTaskId := Some(task.id);
        operation.status := Processing;
        vm.status := VmProvisioning;
      case InProgress =>
        if result.cloneTask != None { return; }
        operation.updatedAt := stamp;
        vm.status := VmProvisioning;
      case AlreadyDone =>
        if result.cloneTask != None { return; }
        operation.phase := Some("configure");
        operation.status := Pending;
        operation.providerTaskId := None;
        operation.lastErrorCode := None;
        vm.status := VmProvisioning;
    }
    raised := false;
  }

  /** `start_configure_vm_operation`. */
  method StartConfigure(operation: Operation, vm: VirtualMachine, keys: map<nat, SshKey>, task: Option<ProviderTask>,
                        stamp: Time, ghost op: Op, ghost v: Vm)
    returns (raised: bool)
    requires ShowsDirect(operation, op) && vm.Shows(v) && KeyUsable(vm.Row(), keys) && v.at.Some?
    requires op.kind == Create && op.stage == Queued(ConfigureVm)
    modifies operation, vm
    ensures Carries(Direct(op, v, Returned(task), stamp), raised, old(operation.Row()), operation.Row(), vm.Row())
  {
    raised := true;
    if operation.status != Pending || operation.phase != Some("configure") { return; }
    if vm.providerNode == None || vm.providerVmid == None || !KeyUsable(vm.Row(), keys) { return; }
    if task == None {
      operation.phase := Some("resize");
      operation.status := Pending;
      operation.providerTaskId := None;
    } else {
      operation.phase := Some("configure");
      operation.status := Processing;
      operation.providerTaskId := Some(task.value.id);
    }
    raised := false;
  }

  function Returned(task: Option<ProviderTask>): CallResult {
    if task.None? then NoTask else TaskResult(task.value)
  }

  /** `start_resize_vm_operation`. */
  method StartResize(operation: Operation, vm: VirtualMachine, keys: map<nat, SshKey>, task: Option<ProviderTask>,
                     stamp: Time, ghost op: Op, ghost v: Vm)
    returns (raised: bool)
    requires ShowsDirect(operation, op) && vm.Shows(v) && KeyUsable(vm.Row(), keys) && v.at.Some?
    requires op.kind == Create && op.stage == Queued(ResizeDisk)
    modifies operation, vm
    ensures Carries(Direct(op, v, Returned(task), stamp), raised, old(operation.Row()), operation.Row(), vm.Row())
  {
    raised := true;
    if operation.status != Pending || operation.phase != Some("resize") { return; }
    if vm.providerNode == None || vm.providerVmid == None || !KeyUsable(vm.Row(), keys) { return; }
    raised := false;
    if task == None {
      operation.phase := Some("start");
      operation.status := Pending;
      operation.providerTaskId := None;
      return;
    }
    operation.status := Processing;
    operation.providerTaskId := Some(task.value.id);
  }

  /** `start_initial_vm_operation`. */
  method StartInitial(operation: Operation, vm: VirtualMachine, task: Option<ProviderTask>, stamp: Time, ghost op: Op,
                      ghost v: Vm)
    returns (raised: bool)
    requires ShowsDirect(operation, op) && vm.Shows(v) && v.at.Some?
    requires op.kind == Create && op.stage == Queued(StartVm)
    modifies operation, vm
    ensures Carries(Direct(op, v, Returned(task), stamp), raised, old(operation.Row()), operation.Row(), vm.Row())
  {
    raised := true;
    if operation.status != Pending || operation.phase != Some("start") { return; }
    if vm.providerNode == None || vm.providerVmid == None { return; }
    raised := false;
    if task == None {
      operation.phase := Some("complete");
      operation.status := Succeeded;
      operation.providerTaskId := None;
      operation.lastErrorCode := None;
      vm.status := VmRunning;
      return;
    }
    operation.providerTaskId := Some(task.value.id);
    operation.status := Processing;
  }

  /** The pending branch of `process_power_off_vm_operation`. */
  method PowerOff(operation: Operation, vm: VirtualMachine, task: Option<ProviderTask>, stamp: Time, ghost op: Op,
                  ghost v: Vm)
    returns (raised: bool)
    requires ShowsDirect(operation, op) && vm.Shows(v) && v.at.Some?
    requires (op.kind == Shutdown || op.kind == Stop) && op.stage.Queued?
    modifies operation, vm
    ensures Carries(Direct(op, v, Returned(task), stamp), raised, old(operation.Row()), operation.Row(), vm.Row())
  {
    raised := true;
    if operation.providerTaskId != None || vm.providerNode == None || vm.providerVmid == None { return; }
    if task == None {
      operation.status := Succeeded;
      operation.phase := Some("complete");
      operation.lastErrorCode := None;
      vm.status := VmStopped;
      return false;
    }
    if task.value.at.node != vm.providerNode.value || task.value.at.vmid != vm.providerVmid.value { return; }
    operation.providerTaskId := Some(task.value.id);
    operation.status := Processing;
    operation.attempts := operation.attempts + 1;
    raised := false;
  }

  /** The pending branch of `process_reboot_vm_operation`. */
  method RebootStep(operation: Operation, vm: VirtualMachine, task: Option<ProviderTask>, stamp: Time, ghost op: Op,
                    ghost v: Vm)
    returns (raised: bool)
    requires ShowsDirect(operation, op) && vm.Shows(v) && v.at.Some? && op.kind == Reboot && op.stage.Queued?
    modifies operation, vm
    ensures Carries(Direct(op, v, Returned(task), stamp), raised, old(operation.Row()), operation.Row(), vm.Row())
  {
    raised := true;
    if operation.phase != Some("shutdown") && operation.phase != Some("start") { return; }
    if operation.providerTaskId != None || vm.providerNode == None || vm.providerVmid == None { return; }
    if task == None {
      if operation.phase == Some("shutdown") {
        operation.phase := Some("start");
        vm.status := VmStopped;
      } else {
        operation.status := Succeeded;
        operation.phase := Some("complete");
        operation.lastErrorCode := None;
        vm.status := VmRunning;
      }
      return false;
    }
    if task.value.at.node != vm.providerNode.value || task.value.at.vmid != vm.providerVmid.value { return; }
    operation.providerTaskId := Some(task.value.id);
    operation.status := Processing;
    operation.attempts := operation.attempts + 1;
    raised := false;
  }

  /** The pending branch of `process_delete_vm_operation`. */
  method Delete(operation: Operation, vm: VirtualMachine, state: SubmitState, task: Option<ProviderTask>, stamp: Time,
                ghost op: Op, ghost v: Vm)
    returns (raised: bool)
    requires ShowsDirect(operation, op) && vm.Shows(v) && v.at.Some? && op.kind == Kind.Delete && op.stage.Queued?
    modifies operation, vm
    ensures Carries(Direct(op, v, DeleteResult(state, task), stamp), raised, old(operation.Row()), operation.Row(),
                    vm.Row())
  {
    raised := true;
    if operation.providerTaskId != None || vm.providerNode == None || vm.providerVmid == None { return; }
    match state {
      case Submitted =>
        if task == None { return; }
        if task.value.at.node != vm.providerNode.value || task.value.at.vmid != vm.providerVmid.value { return; }
        operation.providerTaskId := Some(task.value.id);
        operation.status := Processing;
        operation.attempts := operation.attempts + 1;
        vm.status := VmDeleting;
      case InProgress =>
        if task != None { return; }
        operation.updatedAt := stamp;
        vm.status := VmDeleting;
      case AlreadyDone =>
        if task != None { return; }
        operation.status := Succeeded;
        operation.phase := Some("complete");
        operation.lastErrorCode := None;
        vm.status := VmDeleted;
    }
    raised := false;
  }

  // ---- simulation ----

  /** What the provider offers at one turn of a worker: a target, a result for a command, a task status. */
  datatype Turn = Turn(target: Placement, result: CallResult, answer: TaskAnswer, stamp: Time)

  /** Equal stages, up to the backoff mark of a failed poll. */
  predicate SameStage(a: Stage, b: Stage) {
    match a
    case Awaiting(c, t, _) => b.Awaiting? && b.cmd == c && b.task == t
    case Broken(c, t, _) => b.Broken? && b.cmd == c && b.task == t
    case _ => a == b
  }

  datatype Sim = Sim(op: Op, vm: Vm, sent: seq<Command>)

  /** The call returned, was not in progress, and named no other VM's placement. */
  predicate Smooth(w: Sim, turn: Turn) {
    w.op.stage.Queued? && !NeedsPlacement(w.op, w.vm) && w.vm.at.Some? ==>
      match ReadResult(w.op.stage.cmd, turn.result)
      case Finished => true
      case Working(t) => t.at == w.vm.at.value
      case _ => false
  }

  function Kept(w: Sim, o: Outcome, sent: seq<Command>): Sim {
    if o.Commit? then Sim(o.op, o.vm, w.sent + sent) else w.(sent := w.sent + sent)
  }

  /** A turn of the one-shot worker: place, call and store in one transaction, or poll; a failed poll rolls back. */
  function DirectTurn(w: Sim, turn: Turn): Sim {
    if NeedsPlacement(w.op, w.vm) then w.(vm := w.vm.(at := Some(turn.target)))
    else
      match w.op.stage
      case Queued(c) => Kept(w, Direct(w.op, w.vm, turn.result, turn.stamp), [c])
      case Awaiting(_, _, _) =>
        if turn.answer.TaskUnavailable? then w else Kept(w, Poll(w.op, w.vm, turn.answer, turn.stamp), [])
      case _ => w
  }

  /** A turn of the two-transaction worker: mark, call, settle. */
  function ProtocolTurn(w: Sim, turn: Turn): Sim {
    var o := FirstPass(w.op, w.vm, Answers(Target(turn.target), PowerUnavailable, turn.answer), turn.stamp);
    match Sends(w.op, w.vm)
    case None => Kept(w, o, [])
    case Some(c) =>
      var marked := Kept(w, o, [c]);
      if o.Commit? then Kept(marked, Settle(marked.op, marked.vm, c, turn.result, turn.stamp), []) else w
  }

  function DirectRun(w: Sim, turns: seq<Turn>): Sim {
    if turns == [] then w else DirectTurn(DirectRun(w, turns[..|turns| - 1]), turns[|turns| - 1])
  }

  function ProtocolRun(w: Sim, turns: seq<Turn>): Sim {
    if turns == [] then w else ProtocolTurn(ProtocolRun(w, turns[..|turns| - 1]), turns[|turns| - 1])
  }

  ghost predicate SmoothRun(w: Sim, turns: seq<Turn>) {
    turns == []
    || (&& SmoothRun(w, turns[..|turns| - 1])
        && Smooth(ProtocolRun(w, turns[..|turns| - 1]), turns[|turns| - 1]))
  }

  /** No call is in flight, and none was lost. */
  predicate Quiet(stage: Stage) {
    stage.Queued? || stage.Awaiting? || stage.Done? || stage.Broken?
  }

  /** Where the two workers agree: the VM row, the stage, and every command sent so far. */
  predicate Alike(a: Sim, b: Sim) {
    && Quiet(b.op.stage)
    && SameStage(a.op.stage, b.op.stage) && a.op.kind == b.op.kind && a.vm == b.vm && a.sent == b.sent
  }

  lemma SettledAsDirect(a: Op, b: Op, vm: Vm, result: CallResult, stamp: Time)
    requires a.kind == b.kind && a.stage == b.stage && a.stage.Queued? && Sound(b, vm) && vm.at.Some?
    requires match ReadResult(b.stage.cmd, result)
             case Finished => true
             case Working(t) => t.at == vm.at.value
             case _ => false
    ensures Mark(b, vm, stamp).Commit?
    ensures var o, m := Direct(a, vm, result, stamp), Mark(b, vm, stamp);
            var o' := Settle(m.op, m.vm, b.stage.cmd, result, stamp);
            && o.Commit? && o'.Commit? && o.op.stage == o'.op.stage && o.op.kind == o'.op.kind && o.vm == o'.vm
            && Sound(o'.op, o'.vm) && Quiet(o'.op.stage)
  {
    MarkEvolves(b, vm, stamp);
    var m := Mark(b, vm, stamp);
    SettleEvolves(m.op, m.vm, b.stage.cmd, result, stamp);
  }

  lemma PolledAlike(a: Op, b: Op, vm: Vm, answer: TaskAnswer, stamp: Time)
    requires a.kind == b.kind && SameStage(a.stage, b.stage) && b.stage.Awaiting? && Sound(b, vm)
    ensures var o, o' := Poll(a, vm, answer, stamp), Poll(b, vm, answer, stamp);
            && o.Commit? && o'.Commit? && SameStage(o.op.stage, o'.op.stage) && o.op.kind == o'.op.kind == b.kind
            && o.vm == o'.vm
            && (answer.TaskUnavailable? ==> SameStage(a.stage, o'.op.stage) && o'.vm == vm)
            && Sound(o'.op, o'.vm) && Quiet(o'.op.stage)
  {
    PollEvolves(b, vm, answer, stamp);
  }

  lemma TurnSimulated(a: Sim, b: Sim, turn: Turn)
    requires Alike(a, b) && Sound(b.op, b.vm) && Smooth(b, turn)
    ensures Alike(DirectTurn(a, turn), ProtocolTurn(b, turn))
    ensures Sound(ProtocolTurn(b, turn).op, ProtocolTurn(b, turn).vm)
  {
    hide Sound, Poll, Mark, Settle, Direct, ReadResult;
    assert forall sent: seq<Command> :: sent + [] == sent;
    match b.op.stage
    case Queued(_) =>
      if !NeedsPlacement(b.op, b.vm) {
        assert b.vm.at.Some? by { PlacedUnlessNeeded(b.op, b.vm); }
        SettledAsDirect(a.op, b.op, b.vm, turn.result, turn.stamp);
      } else {
        PlacementSound(b.op, b.vm, turn.target);
      }
    case Awaiting(_, _, _) =>
      PolledAlike(a.op, b.op, b.vm, turn.answer, turn.stamp);
    case _ =>
  }

  lemma PlacedUnlessNeeded(op: Op, vm: Vm)
    requires Sound(op, vm) && !NeedsPlacement(op, vm)
    ensures vm.at.Some?
  {}

  lemma PlacementSound(op: Op, vm: Vm, at: Placement)
    requires Sound(op, vm) && NeedsPlacement(op, vm)
    ensures Sound(op, vm.(at := Some(at)))
  {}

  /** Over any turns in which calls return and are not in progress, the two-transaction protocol simulates the
      one-shot handlers: the same commands in the same order, and after every turn the same status, step, task id
      and VM row. */
  lemma {:induction false} ProtocolSimulatesOneShot(start: Sim, turns: seq<Turn>)
    requires Sound(start.op, start.vm) && Quiet(start.op.stage) && start.op.kind != Start && SmoothRun(start, turns)
    ensures var a, b := DirectRun(start, turns), ProtocolRun(start, turns);
            && a.sent == b.sent && a.vm == b.vm && SameStage(a.op.stage, b.op.stage)
            && StatusOf(a.op.stage) == StatusOf(b.op.stage) && TaskOf(a.op.stage) == TaskOf(b.op.stage)
            && Alike(a, b) && Sound(b.op, b.vm)
  {
    hide Sound, DirectTurn, ProtocolTurn, Smooth;
    if turns != [] {
      ProtocolSimulatesOneShot(start, turns[..|turns| - 1]);
      TurnSimulated(DirectRun(start, turns[..|turns| - 1]), ProtocolRun(start, turns[..|turns| - 1]),
                    turns[|turns| - 1]);
    }
  }

  /** Where they part: while the provider says "in progress", the one-shot handler sends its clone or delete again at
      every turn, and the protocol has sent it once. */
  lemma {:induction false} InProgressParts(start: Sim, turns: seq<Turn>)
    requires Sound(start.op, start.vm) && start.op.stage.Queued? && start.vm.at.Some? && start.sent == [] && turns != []
    requires forall k :: 0 <= k < |turns| ==>
               turns[k].answer.TaskUnavailable? && ReadResult(start.op.stage.cmd, turns[k].result) == Unfinished
    ensures |DirectRun(start, turns).sent| == |turns| && DirectRun(start, turns).op.stage == start.op.stage
    ensures DirectRun(start, turns).vm.at == start.vm.at
    ensures ProtocolRun(start, turns).sent == [start.op.stage.cmd]
            && ProtocolRun(start, turns).op.stage == Unsure(start.op.stage.cmd)
    ensures ProtocolRun(start, turns).vm.at == start.vm.at && ProtocolRun(start, turns).op.kind == start.op.kind
  {
    hide Sound;
    var before := turns[..|turns| - 1];
    if before == [] {
      assert DirectRun(start, before) == start && ProtocolRun(start, before) == start;
      InProgressFirst(start, turns[0]);
    } else {
      InProgressParts(start, before);
      InProgressAgain(DirectRun(start, before), ProtocolRun(start, before), turns[|turns| - 1]);
    }
  }

  lemma InProgressFirst(w: Sim, turn: Turn)
    requires w.op.stage.Queued? && w.vm.at.Some? && ReadResult(w.op.stage.cmd, turn.result) == Unfinished
    ensures var a, b := DirectTurn(w, turn), ProtocolTurn(w, turn);
            && |a.sent| == |w.sent| + 1 && a.op.stage == w.op.stage && a.vm.at == w.vm.at
            && b.sent == w.sent + [w.op.stage.cmd] && b.op.stage == Unsure(w.op.stage.cmd) && b.vm.at == w.vm.at
            && b.op.kind == w.op.kind
  {}

  lemma InProgressAgain(a: Sim, b: Sim, turn: Turn)
    requires a.op.stage.Queued? && a.vm.at.Some? && ReadResult(a.op.stage.cmd, turn.result) == Unfinished
    requires b.op.stage.Unsure? && b.vm.at.Some? && turn.answer.TaskUnavailable?
    ensures var a', b' := DirectTurn(a, turn), ProtocolTurn(b, turn);
            && |a'.sent| == |a.sent| + 1 && a'.op.stage == a.op.stage && a'.vm.at == a.vm.at
            && b'.sent == b.sent && b'.op.kind == b.op.kind && b'.vm.at == b.vm.at
            && (b.op.stage.cmd == CloneVm || b.op.stage.cmd == Command.DeleteVm ==> b'.op.stage == b.op.stage)
  {}
}
