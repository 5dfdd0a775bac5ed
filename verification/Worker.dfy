/** The transactions of `run_once`: selecting a row, the first transaction, and the finish and
    failure transactions after the provider call. Every method is proved to carry the string rows
    of the database along with the typed rows of `Transitions`. */
module Worker {
  import opened Domain
  import opened Texts
  import opened Phases
  import opened Transitions
  import opened Rows
  import opened OperationServices
  import opened Tables

  /** The command a pass has to send after its commit. */
  datatype Dispatch = Dispatch(command: Command, request: Option<CreateVmRequest>, target: Placement)

  // ---- the queue query ----

  predicate PhaseLike(row: OpRow, p: string) {
    row.phase.Some? && LikePrefix(row.phase.value, p)
  }

  /** The WHERE clause of the queue query. */
  predicate SelectableRow(row: OpRow, now: Time) {
    && (row.status == Pending || row.status == Processing)
    && (|| row.status == Pending
        || (PhaseLike(row, "dispatch") && row.updatedAt + DISPATCH_GRACE <= now)
        || (PhaseLike(row, "reconcile") && row.updatedAt + RECONCILE_DELAY <= now)
        || (PhaseLike(row, "poll_backoff") && row.updatedAt + RECONCILE_DELAY <= now)
        || (row.providerTaskId.Some? && (row.phase.None? || !LikePrefix(row.phase.value, "poll_backoff"))))
  }

  lemma MarkersLike(kind: Kind, c: Command)
    requires Uses(kind, c)
    ensures LikePrefix(DispatchText(kind, c), "dispatch") && LikePrefix(UnsureText(kind, c), "reconcile")
    ensures LikePrefix(PollText(kind, c, true), "poll_backoff")
  {
    hide DispatchText, UnsureText;
    DispatchLike(kind, c);
    UnsureLike(kind, c);
  }

  lemma DispatchLike(kind: Kind, c: Command)
    requires Uses(kind, c)
    ensures LikePrefix(DispatchText(kind, c), "dispatch")
  {}

  lemma UnsureLike(kind: Kind, c: Command)
    requires Uses(kind, c)
    ensures LikePrefix(UnsureText(kind, c), "reconcile")
  {}

  lemma PollTextLetters(kind: Kind, c: Command, slow: bool)
    requires Uses(kind, c)
    ensures PollText(kind, c, slow) != "" && (PollText(kind, c, slow)[0] == 'p' <==> slow)
  {}

  lemma SelectableShown(op: Op, now: Time)
    requires Fits(op.kind, op.stage)
    ensures SelectableRow(OpRowOf(op), now) <==> Selectable(op, now)
  {
    hide DispatchText, UnsureText, PollText, ParkedText;
    match op.stage
    case Queued(_) =>
    case Done =>
    case Broken(_, _, _) =>
    case Dispatched(c) => MarkersLike(op.kind, c); FirstLetters(op.kind, c);
    case Unsure(c) => MarkersLike(op.kind, c); FirstLetters(op.kind, c);
    case Parked(c) => FirstLetters(op.kind, c);
    case Awaiting(c, _, slow) => MarkersLike(op.kind, c); PollTextLetters(op.kind, c, slow);
  }

  // ---- the branches of the first transaction, on loaded objects ----

  /** The row a service left behind, after the handler of a raised poll or reconciliation. */
  method NoteUnavailable(operation: Operation, phase: string, stamp: Time)
    modifies operation
    ensures operation.Row() == old(operation.Row()).(
              phase := Some(phase), lastErrorCode := STATUS_UNAVAILABLE, updatedAt := stamp)
  {
    operation.phase := Some(phase);
    operation.lastErrorCode := Some("provider_status_unavailable");
    operation.updatedAt := stamp;
  }

  /** `start_create_vm_operation` while the VM has no saved target: choose one and save it. */
  method SavePlacement(operation: Operation, vm: VirtualMachine, keys: map<nat, SshKey>, answer: TargetAnswer)
    returns (raised: bool)
    modifies vm
    ensures raised <==>
            !(&& operation.operationType == Create && operation.status == Pending && operation.providerTaskId == None
              && operation.phase == Some("clone") && old(KeyUsable(vm.Row(), keys))
              && old(vm.providerNode == None && vm.providerVmid == None) && answer.Target?)
    ensures vm.Row() == if raised then old(vm.Row())
                        else old(vm.Row()).(providerNode := Some(answer.at.node), providerVmid := Some(answer.at.vmid))
  {
    raised := true;
    if operation.operationType != Create || operation.status != Pending { return; }
    if operation.providerTaskId != None || operation.phase != Some("clone") { return; }
    if !KeyUsable(vm.Row(), keys) { return; }
    if vm.providerNode != None || vm.providerVmid != None || answer == TargetUnavailable { return; }
    vm.providerNode := Some(answer.at.node);
    vm.providerVmid := Some(answer.at.vmid);
    raised := false;
  }

  /** What the pass hands to the provider call, given the row it marked. */
  ghost predicate Hands(dispatch: Option<Dispatch>, op: Op, v: Vm, vmRow: VmRow, keys: map<nat, SshKey>) {
    match Sends(op, v)
    case None => dispatch == None
    case Some(c) =>
      && v.at.Some? && dispatch.Some?
      && dispatch.value.command == c && dispatch.value.target == v.at.value
      && dispatch.value.request ==
         if op.kind == Create && c != StartVm && KeyUsable(vmRow, keys) then Some(RequestOf(vmRow, keys)) else None
  }

  /** The dispatch in plain terms: the queued command, the VM's saved target, and for a clone, configure or resize
      the VM's own request with its stored key. */
  predicate HandsOver(dispatch: Dispatch, op: Op, v: Vm, keys: map<nat, SshKey>) {
    && op.stage == Queued(dispatch.command) && v.at == Some(dispatch.target)
    && (dispatch.command in {CloneVm, ConfigureVm, ResizeDisk} ==>
          && dispatch.request.Some? && v.spec.sshKey in keys
          && var r := dispatch.request.value;
             && r.vmId == v.uuid && r.imageId == v.spec.image && r.vcpus == v.spec.vcpus
             && r.memoryMb == v.spec.memoryMb && r.storageGb == v.spec.storageGb
             && r.sshPublicKey == keys[v.spec.sshKey].publicKey)
    && (dispatch.command !in {CloneVm, ConfigureVm, ResizeDisk} ==> dispatch.request == None)
  }

  /** What a pass hands over for a VM row with a usable key is the VM's own request. */
  lemma HandsOwnRequest(dispatch: Option<Dispatch>, op: Op, v: Vm, keys: map<nat, SshKey>)
    requires Fits(op.kind, op.stage) && KeyUsable(VmRowOf(v), keys) && Hands(dispatch, op, v, VmRowOf(v), keys)
    ensures dispatch.Some? ==> HandsOver(dispatch.value, op, v, keys)
  {}

  /** The create step a phase string names: the dispatch of `run_once` on its remembered phase. */
  function StepNamed(phase: string): Command {
    if phase == "clone" then CloneVm
    else if phase == "configure" then ConfigureVm
    else if phase == "resize" then ResizeDisk
    else StartVm
  }

  lemma StepNamedBack(c: Command)
    requires Uses(Create, c)
    ensures StepNamed(CommandText(c)) == c
  {}

  method PassPendingCreate(operation: Operation, vm: VirtualMachine, keys: map<nat, SshKey>, answers: Answers,
                           stamp: Time, ghost op: Op, ghost v: Vm)
    returns (raised: bool, dispatch: Option<Dispatch>)
    requires operation.Loaded(op) && vm.Shows(v) && op.kind == Create && KeyUsable(vm.Row(), keys)
    requires op.stage.Queued?
    modifies operation, vm
    ensures Realises(FirstPass(op, v, answers, stamp), raised, old(operation.Row()), operation.Row(), vm.Row())
    ensures !raised ==> Hands(dispatch, op, v, old(vm.Row()), keys)
  {
    hide DispatchText, UnsureText, PollText, ParkedText;
    raised, dispatch := true, None;
    MarkersDiffer(Create, op.stage.cmd, CloneVm);
    MarkersDiffer(Create, op.stage.cmd, StartVm);
    StepNamedBack(op.stage.cmd);
    if operation.phase == Some("clone") && vm.providerNode == None && vm.providerVmid == None {
      raised := SavePlacement(operation, vm, keys, answers.target);
    } else if operation.phase != None {
      var step := StepNamed(operation.phase.value);
      var request, target;
      raised, request, target := PrepareCreateVmDispatch(operation, vm, keys, stamp, op, v);
      dispatch := Some(Dispatch(step, request, target));
    }
  }

  method PassPolledCreate(operation: Operation, vm: VirtualMachine, answer: TaskAnswer, stamp: Time, ghost op: Op,
                          ghost v: Vm)
    requires operation.Loaded(op) && vm.Shows(v) && op.kind == Create && op.stage.Awaiting? && v.at.Some?
    modifies operation, vm
    ensures Realises(Poll(op, v, answer, stamp), false, old(operation.Row()), operation.Row(), vm.Row())
  {
    hide DispatchText, UnsureText, PollText, ParkedText;
    var Awaiting(c, t, slow) := op.stage;
    BackoffPrefix(Create, c);
    if StartsWith(operation.phase.value, "poll_backoff_create_") {
      operation.phase := Some(RemovePrefix(operation.phase.value, "poll_backoff_create_"));
    }
    ghost var op' := op.(stage := Awaiting(c, t, false));
    var raised := RefreshCreateVmOperation(operation, vm, answer, stamp, op', v);
    if raised {
      NoteUnavailable(operation, "poll_backoff_create_" + operation.phase.value, stamp);
    }
  }

  method PassUnsureCreate(operation: Operation, vm: VirtualMachine, answer: PowerAnswer, stamp: Time, ghost op: Op,
                          ghost v: Vm)
    requires operation.Loaded(op) && vm.Shows(v) && op.kind == Create && (op.stage.Dispatched? || op.stage.Unsure?)
             && v.at.Some?
    modifies operation, vm
    ensures Realises(Reconcile(op, v, answer, stamp), false, old(operation.Row()), operation.Row(), vm.Row())
  {
    hide DispatchText, UnsureText, PollText, ParkedText;
    DispatchToReconcile(Create, op.stage.cmd);
    var raised := ReconcileCreateVmOperation(operation, vm, answer, stamp, op, v);
    if raised {
      NoteUnavailable(operation, ReplaceFirst(operation.phase.value, "dispatch_", "reconcile_"), stamp);
    }
  }

  method CreatePass(operation: Operation, vm: VirtualMachine, keys: map<nat, SshKey>, answers: Answers, stamp: Time,
                    ghost op: Op, ghost v: Vm)
    returns (raised: bool, dispatch: Option<Dispatch>)
    requires operation.Loaded(op) && vm.Shows(v) && op.kind == Create && KeyUsable(vm.Row(), keys)
    requires op.stage.Queued? || v.at.Some?
    requires Active(op.stage) && !op.stage.Parked?
    modifies operation, vm
    ensures Realises(FirstPass(op, v, answers, stamp), raised, old(operation.Row()), operation.Row(), vm.Row())
    ensures !raised ==> Hands(dispatch, op, v, old(vm.Row()), keys)
  {
    hide DispatchText, UnsureText, PollText, ParkedText;
    raised, dispatch := true, None;
    if op.stage.Dispatched? || op.stage.Unsure? {
      DispatchToReconcile(Create, op.stage.cmd);
      CreatePrefix(op.stage.cmd);
    }
    if operation.status == Pending {
      raised, dispatch := PassPendingCreate(operation, vm, keys, answers, stamp, op, v);
    } else if operation.providerTaskId != None {
      PassPolledCreate(operation, vm, answers.task, stamp, op, v);
      raised := false;
    } else if operation.phase != None && (StartsWith(operation.phase.value, "dispatch_create_")
                                          || StartsWith(operation.phase.value, "reconcile_create_")) {
      PassUnsureCreate(operation, vm, answers.power, stamp, op, v);
      raised := false;
    }
  }

  lemma CreatePrefix(c: Command)
    requires Uses(Create, c)
    ensures StartsWith(DispatchText(Create, c), "dispatch_create_")
    ensures StartsWith(UnsureText(Create, c), "reconcile_create_")
  {
    DispatchSpelling(Create, c);
    UnsureSpelling(Create, c);
    PrefixOfSum("dispatch_create_", CommandText(c));
    PrefixOfSum("reconcile_create_", CommandText(c));
  }

  method StartPass(operation: Operation, vm: VirtualMachine, answers: Answers, stamp: Time, ghost op: Op, ghost v: Vm)
    returns (raised: bool, dispatch: Option<Dispatch>)
    requires operation.Loaded(op) && vm.Shows(v) && op.kind == Start && v.at.Some?
    requires Active(op.stage) && !op.stage.Parked?
    modifies operation, vm
    ensures Realises(FirstPass(op, v, answers, stamp), raised, old(operation.Row()), operation.Row(), vm.Row())
    ensures !raised ==> Hands(dispatch, op, v, old(vm.Row()), map[])
  {
    hide ParkedText;
    raised, dispatch := true, None;
    if operation.status == Pending {
      var target;
      raised, target := PrepareStartVmDispatch(operation, vm, stamp, op, v);
      dispatch := Some(Dispatch(StartVm, None, target));
    } else if operation.providerTaskId != None {
      raised := ProcessStartVmOperation(operation, vm, answers.task, stamp, op, v);
      if raised {
        NoteUnavailable(operation, "poll_backoff", stamp);
        raised := false;
      }
    } else if operation.phase == Some("dispatching") || operation.phase == Some("reconcile") {
      raised := ReconcileStartVmOperation(operation, vm, answers.power, stamp, op, v);
      if raised {
        NoteUnavailable(operation, "reconcile", stamp);
        raised := false;
      }
    }
  }

  method PassPolledReboot(operation: Operation, vm: VirtualMachine, answer: TaskAnswer, stamp: Time, ghost op: Op,
                          ghost v: Vm)
    requires operation.Loaded(op) && vm.Shows(v) && op.kind == Reboot && op.stage.Awaiting? && v.at.Some?
    modifies operation, vm
    ensures Realises(Poll(op, v, answer, stamp), false, old(operation.Row()), operation.Row(), vm.Row())
  {
    hide DispatchText, UnsureText, CommandText, ParkedText;
    var Awaiting(c, t, slow) := op.stage;
    BackoffPrefix(Reboot, c);
    if StartsWith(operation.phase.value, "poll_backoff_") {
      operation.phase := Some(RemovePrefix(operation.phase.value, "poll_backoff_"));
    }
    var raised := PollReboot(operation, vm, answer, stamp, op.(stage := Awaiting(c, t, false)), v);
    if raised { NoteUnavailable(operation, "poll_backoff_" + operation.phase.value, stamp); }
  }

  method PassPolledLifecycle(operation: Operation, vm: VirtualMachine, answer: TaskAnswer, stamp: Time, ghost op: Op,
                             ghost v: Vm)
    requires operation.Loaded(op) && vm.Shows(v) && Lifecycle(op.kind) && op.stage.Awaiting? && v.at.Some?
    modifies operation, vm
    ensures Realises(Poll(op, v, answer, stamp), false, old(operation.Row()), operation.Row(), vm.Row())
  {
    hide DispatchText, UnsureText, CommandText, ParkedText;
    if operation.operationType == Reboot {
      PassPolledReboot(operation, vm, answer, stamp, op, v);
      return;
    }
    var raised;
    if operation.operationType == Shutdown || operation.operationType == Stop {
      raised := PollPowerOff(operation, vm, answer, stamp, op, v);
    } else {
      raised := PollDelete(operation, vm, answer, stamp, op, v);
    }
    if raised { NoteUnavailable(operation, "poll_backoff", stamp); }
  }

  method PassUnsureLifecycle(operation: Operation, vm: VirtualMachine, answer: PowerAnswer, stamp: Time, ghost op: Op,
                             ghost v: Vm)
    requires operation.Loaded(op) && vm.Shows(v) && Lifecycle(op.kind) && (op.stage.Dispatched? || op.stage.Unsure?)
             && v.at.Some?
    modifies operation, vm
    ensures Realises(Reconcile(op, v, answer, stamp), false, old(operation.Row()), operation.Row(), vm.Row())
  {
    hide DispatchText, UnsureText, PollText, ParkedText;
    DispatchToReconcile(op.kind, op.stage.cmd);
    var raised := ReconcileLifecycleOperation(operation, vm, answer, stamp, op, v);
    if raised {
      NoteUnavailable(operation, ReplaceFirst(operation.phase.value, "dispatch_", "reconcile_"), stamp);
    }
  }

  method LifecyclePass(operation: Operation, vm: VirtualMachine, answers: Answers, stamp: Time, ghost op: Op,
                       ghost v: Vm)
    returns (raised: bool, dispatch: Option<Dispatch>)
    requires operation.Loaded(op) && vm.Shows(v) && Lifecycle(op.kind) && v.at.Some?
    requires Active(op.stage) && !op.stage.Parked?
    modifies operation, vm
    ensures Realises(FirstPass(op, v, answers, stamp), raised, old(operation.Row()), operation.Row(), vm.Row())
    ensures !raised ==> Hands(dispatch, op, v, old(vm.Row()), map[])
  {
    hide DispatchText, UnsureText, PollText, ParkedText;
    raised, dispatch := true, None;
    if op.stage.Dispatched? || op.stage.Unsure? { DispatchToReconcile(op.kind, op.stage.cmd); }
    if operation.status == Pending {
      var command, target;
      raised, command, target := PrepareLifecycleDispatch(operation, vm, stamp, op, v);
      dispatch := Some(Dispatch(command, None, target));
    } else if operation.providerTaskId != None {
      PassPolledLifecycle(operation, vm, answers.task, stamp, op, v);
      raised := false;
    } else if operation.phase != None && (StartsWith(operation.phase.value, "dispatch_")
                                          || StartsWith(operation.phase.value, "reconcile_")) {
      PassUnsureLifecycle(operation, vm, answers.power, stamp, op, v);
      raised := false;
    }
  }

  // ---- the database and its transactions ----

  class Database {
    var operations: seq<OpRow>
    var virtualMachines: seq<VmRow>
    var sshKeys: map<nat, SshKey>

    /** The tables hold the rows of these typed tables. */
    ghost predicate Stores(t: Tables)
      reads this
    {
      && Linked(t)
      && |operations| == |t.ops| && |virtualMachines| == |t.vms|
      && (forall i :: 0 <= i < |t.ops| ==> operations[i] == OpRowOf(t.ops[i]))
      && (forall j :: 0 <= j < |t.vms| ==> virtualMachines[j] == VmRowOf(t.vms[j]))
    }

    /** Every VM row has a key of its own owner, as `create_vm` checks. */
    ghost predicate KeysUsable()
      reads this
    {
      forall j :: 0 <= j < |virtualMachines| ==> KeyUsable(virtualMachines[j], sshKeys)
    }

    /** The queue query: the oldest selectable row that no other worker has locked. */
    method SelectNext(now: Time, locked: set<nat>) returns (next: Option<nat>)
      ensures next.None? ==>
                forall i :: 0 <= i < |operations| && i !in locked ==> !SelectableRow(operations[i], now)
      ensures next.Some? ==>
                && next.value < |operations| && next.value !in locked && SelectableRow(operations[next.value], now)
                && forall i :: 0 <= i < |operations| && i !in locked && SelectableRow(operations[i], now) ==>
                     operations[next.value].updatedAt <= operations[i].updatedAt
    {
      next := None;
      var i := 0;
      while i < |operations|
        invariant i <= |operations|
        invariant next.None? ==> forall k :: 0 <= k < i && k !in locked ==> !SelectableRow(operations[k], now)
        invariant next.Some? ==>
                    && next.value < i && next.value !in locked && SelectableRow(operations[next.value], now)
                    && forall k :: 0 <= k < i && k !in locked && SelectableRow(operations[k], now) ==>
                         operations[next.value].updatedAt <= operations[k].updatedAt
      {
        if i !in locked && SelectableRow(operations[i], now) {
          if next == None || operations[i].updatedAt < operations[next.value].updatedAt {
            next := Some(i);
          }
        }
        i := i + 1;
      }
    }

    /** Whether another VM row already has this VMID. */
    method VmidTaken(j: nat, vmid: Option<int>) returns (taken: bool)
      ensures taken <==>
              vmid.Some? && exists k :: 0 <= k < |virtualMachines| && k != j && virtualMachines[k].providerVmid == vmid
    {
      taken := false;
      if vmid == None { return; }
      for k := 0 to |virtualMachines|
        invariant !taken ==> forall m :: 0 <= m < k && m != j ==> virtualMachines[m].providerVmid != vmid
        invariant taken ==> exists m :: 0 <= m < k && m != j && virtualMachines[m].providerVmid == vmid
      {
        if k != j && virtualMachines[k].providerVmid == vmid { taken := true; }
      }
    }

    /** Flush and commit of the two loaded objects; a duplicate VMID rolls everything back. */
    method Commit(i: nat, operation: Operation, vm: VirtualMachine, stamp: Time) returns (raised: bool)
      requires i < |operations| && operations[i].virtualMachineId < |virtualMachines|
      modifies this
      ensures sshKeys == old(sshKeys)
      ensures raised <==>
              vm.Row().providerVmid.Some?
              && exists k :: 0 <= k < |old(virtualMachines)| && k != old(operations)[i].virtualMachineId
                             && old(virtualMachines)[k].providerVmid == vm.Row().providerVmid
      ensures raised ==> operations == old(operations) && virtualMachines == old(virtualMachines)
      ensures !raised ==>
                && operations == old(operations)[i := Flushed(old(operations)[i], operation.Row(), stamp)]
                && virtualMachines == old(virtualMachines)[old(operations)[i].virtualMachineId := vm.Row()]
    {
      var j := operations[i].virtualMachineId;
      raised := VmidTaken(j, vm.providerVmid);
      if raised { return; }
      operations := operations[i := Flushed(operations[i], operation.Row(), stamp)];
      virtualMachines := virtualMachines[j := vm.Row()];
    }
  }

  /** A commit of objects that realise a typed outcome is the typed transaction. */
  lemma CommitIsTransact(t: Tables, i: nat, o: Outcome, before: OpRow, after: OpRow, vmAfter: VmRow, taken: bool)
    requires Linked(t) && i < |t.ops| && before == OpRowOf(t.ops[i])
    requires Realises(o, false, before, after, vmAfter)
    requires o.op.vm == t.ops[i].vm
    requires taken <==> vmAfter.providerVmid.Some?
                        && exists k :: 0 <= k < |t.vms| && k != t.ops[i].vm
                                       && VmRowOf(t.vms[k]).providerVmid == vmAfter.providerVmid
    ensures taken <==> !Commits(t, i, o)
  {
    forall k | 0 <= k < |t.vms|
      ensures VmRowOf(t.vms[k]).providerVmid == if t.vms[k].at.Some? then Some(t.vms[k].at.value.vmid) else None
    {}
  }

  lemma FirstPassStamps(op: Op, v: Vm, answers: Answers, stamp: Time)
    ensures var o := FirstPass(op, v, answers, stamp);
            o.Commit? ==> o.op.vm == op.vm && (o.op == op || o.op.updatedAt == stamp)
  {}

  /** A service outcome, committed: the database then stores the typed transaction. */
  method CommitOutcome(db: Database, i: nat, operation: Operation, vm: VirtualMachine, stamp: Time,
                       ghost t: Tables, ghost o: Outcome)
    returns (raised: bool)
    requires db.Stores(t) && i < |db.operations|
    requires o.Commit? && o.op.vm == t.ops[i].vm && (o.op == t.ops[i] || o.op.updatedAt == stamp)
    requires Realises(o, false, OpRowOf(t.ops[i]), operation.Row(), vm.Row())
    modifies db
    ensures db.sshKeys == old(db.sshKeys)
    ensures (raised <==> !Commits(t, i, o)) && db.Stores(Transact(t, i, o))
  {
    hide PhaseText, StatusOf, TaskOf;
    ghost var before, after, vmAfter := db.operations[i], operation.Row(), vm.Row();
    assert Flushed(before, after, stamp) == OpRowOf(o.op);
    raised := db.Commit(i, operation, vm, stamp);
    CommitIsTransact(t, i, o, before, after, vmAfter, raised);
  }

  /** The first transaction of `run_once` on the selected row. */
  method FirstTransaction(db: Database, i: nat, answers: Answers, stamp: Time, ghost t: Tables)
    returns (raised: bool, dispatch: Option<Dispatch>)
    requires db.Stores(t) && db.KeysUsable() && i < |db.operations|
    requires Handleable(t.ops[i], t.vms[t.ops[i].vm])
    modifies db
    ensures db.sshKeys == old(db.sshKeys)
    ensures var o := FirstPass(t.ops[i], t.vms[t.ops[i].vm], answers, stamp);
            && (raised <==> !Commits(t, i, o))
            && db.Stores(Transact(t, i, o))
            && (!raised ==> Hands(dispatch, t.ops[i], t.vms[t.ops[i].vm], VmRowOf(t.vms[t.ops[i].vm]), db.sshKeys))
    ensures !raised && dispatch.Some? ==> HandsOver(dispatch.value, t.ops[i], t.vms[t.ops[i].vm], db.sshKeys)
  {
    hide PhaseText, FirstPass, HandsOver;
    ghost var op, v := t.ops[i], t.vms[t.ops[i].vm];
    ghost var o := FirstPass(op, v, answers, stamp);
    FirstPassStamps(op, v, answers, stamp);
    var operation := new Operation(db.operations[i]);
    var vm := new VirtualMachine(db.virtualMachines[operation.virtualMachineId]);
    match operation.operationType {
      case Create => raised, dispatch := CreatePass(operation, vm, db.sshKeys, answers, stamp, op, v);
      case Start => raised, dispatch := StartPass(operation, vm, answers, stamp, op, v);
      case _ => raised, dispatch := LifecyclePass(operation, vm, answers, stamp, op, v);
    }
    if !raised {
      assert KeyUsable(VmRowOf(v), db.sshKeys);
      HandsOwnRequest(dispatch, op, v, db.sshKeys);
      raised := CommitOutcome(db, i, operation, vm, stamp, t, o);
    }
  }

  // ---- the transactions after the provider call ----

  lemma SettleStamps(op: Op, v: Vm, sent: Command, result: CallResult, stamp: Time)
    ensures var o := Settle(op, v, sent, result, stamp); o.Commit? ==> o.op.vm == op.vm && o.op.updatedAt == stamp
    ensures var o := Lose(op, v, sent, stamp); o.Commit? ==> o.op.vm == op.vm && o.op.updatedAt == stamp
  {}

  /** A call sent for an operation: one of its own commands, and for a start result `None` or a task. */
  ghost predicate Answerable(op: Op, sent: Command, result: CallResult) {
    && (op.kind == Create ==> Uses(Create, sent))
    && (op.kind == Start ==> sent == StartVm && (result.NoTask? || result.TaskResult?))
  }

  /** The transaction that stores the result of the call. */
  method FinishTransaction(db: Database, i: nat, sent: Command, result: CallResult, stamp: Time, ghost t: Tables)
    returns (raised: bool)
    requires db.Stores(t) && i < |db.operations| && Answerable(t.ops[i], sent, result)
    modifies db
    ensures db.sshKeys == old(db.sshKeys)
    ensures var o := Settle(t.ops[i], t.vms[t.ops[i].vm], sent, result, stamp);
            (raised <==> !Commits(t, i, o)) && db.Stores(Transact(t, i, o))
  {
    hide PhaseText, Settle;
    ghost var op, v := t.ops[i], t.vms[t.ops[i].vm];
    ghost var o := Settle(op, v, sent, result, stamp);
    SettleStamps(op, v, sent, result, stamp);
    var operation := new Operation(db.operations[i]);
    var vm := new VirtualMachine(db.virtualMachines[operation.virtualMachineId]);
    match operation.operationType {
      case Create =>
        raised := FinishCreateVmDispatch(operation, vm, sent, result, stamp, op, v);
      case Start =>
        var task := if result.TaskResult? then Some(result.task) else None;
        raised := FinishStartVmDispatch(operation, vm, task, stamp, op, v);
      case _ =>
        raised := FinishLifecycleDispatch(operation, vm, result, stamp, sent, op, v);
    }
    if !raised {
      raised := CommitOutcome(db, i, operation, vm, stamp, t, o);
    }
  }

  lemma OnlyDispatchedStartsWithDispatch(kind: Kind, stage: Stage)
    requires Lifecycle(kind) && Fits(kind, stage)
    ensures var p := PhaseText(kind, stage);
            p.Some? && StartsWith(p.value, "dispatch_") <==> stage.Dispatched?
  {
    if stage.Dispatched? {
      DispatchToReconcile(kind, stage.cmd);
    } else if PhaseText(kind, stage).Some? {
      LifecycleLetters(kind, stage);
      PrefixCharacter(PhaseText(kind, stage).value, "dispatch_", 0);
    }
  }

  lemma LifecycleLetters(kind: Kind, stage: Stage)
    requires Lifecycle(kind) && Fits(kind, stage) && !stage.Dispatched? && PhaseText(kind, stage).Some?
    ensures PhaseText(kind, stage).value != "" && PhaseText(kind, stage).value[0] != 'd'
  {}

  /** The guards of the three failure branches of `run_once`: the reconcile phase to store, or an exception. */
  method UnknownPhase(kind: Kind, status: OpStatus, phase: Option<string>, sent: Command, ghost stage: Stage)
    returns (next: Option<string>)
    requires Fits(kind, stage) && status == StatusOf(stage) && phase == PhaseText(kind, stage)
    requires (kind == Create ==> Uses(Create, sent)) && (kind == Start ==> sent == StartVm)
    ensures next == if stage.Dispatched? && (kind == Create ==> stage.cmd == sent)
                    then Some(UnsureText(kind, stage.cmd)) else None
  {
    hide DispatchText, UnsureText, PollText, ParkedText, CommandText;
    next := None;
    match kind
    case Create =>
      DispatchSpelling(Create, sent);
      UnsureSpelling(Create, sent);
      PhaseShowsDispatch(Create, stage, sent);
      if status == Processing && phase == Some("dispatch_create_" + CommandText(sent)) {
        next := Some("reconcile_create_" + CommandText(sent));
      }
    case Start =>
      PhaseShowsDispatch(Start, stage, StartVm);
      StartTexts();
      if status == Processing && phase == Some("dispatching") { next := Some("reconcile"); }
    case _ =>
      OnlyDispatchedStartsWithDispatch(kind, stage);
      if phase != None && StartsWith(phase.value, "dispatch_") {
        DispatchToReconcile(kind, stage.cmd);
        next := Some(ReplaceFirst(phase.value, "dispatch_", "reconcile_"));
      }
  }

  method MarkUnknown(operation: Operation, sent: Command, stamp: Time, ghost op: Op, ghost v: Vm) returns (raised: bool)
    requires operation.Loaded(op)
    requires (op.kind == Create ==> Uses(Create, sent)) && (op.kind == Start ==> sent == StartVm)
    modifies operation
    ensures raised ==> unchanged(operation)
    ensures Realises(Lose(op, v, sent, stamp), raised, old(operation.Row()), operation.Row(), VmRowOf(v))
  {
    hide DispatchText, UnsureText, PollText, ParkedText, CommandText;
    var next := UnknownPhase(operation.operationType, operation.status, operation.phase, sent, op.stage);
    if next == None { return true; }
    operation.phase := next;
    operation.lastErrorCode := Some("provider_submit_unknown");
    operation.updatedAt := stamp;
    raised := false;
  }

  /** A dispatch marker names its command even without looking at the task id. */
  lemma PhaseShowsDispatch(kind: Kind, stage: Stage, sent: Command)
    requires (kind == Create || kind == Start) && Fits(kind, stage) && Uses(kind, sent)
    ensures PhaseText(kind, stage) == Some(DispatchText(kind, sent)) <==> stage == Dispatched(sent)
  {
    FirstLetters(kind, sent);
    if stage.Dispatched? {
      MarkersDiffer(kind, sent, stage.cmd);
    } else if PhaseText(kind, stage).Some? {
      CreateStartLetters(kind, stage);
    }
  }

  lemma CreateStartLetters(kind: Kind, stage: Stage)
    requires (kind == Create || kind == Start) && Fits(kind, stage) && !stage.Dispatched?
             && PhaseText(kind, stage).Some?
    ensures PhaseText(kind, stage).value != "" && PhaseText(kind, stage).value[0] != 'd'
  {}

  lemma StartTexts()
    ensures DispatchText(Start, StartVm) == "dispatching" && UnsureText(Start, StartVm) == "reconcile"
  {}

  /** The transaction that stores that the call's outcome is unknown. */
  method FailureTransaction(db: Database, i: nat, sent: Command, stamp: Time, ghost t: Tables)
    returns (raised: bool)
    requires db.Stores(t) && i < |db.operations|
    requires (t.ops[i].kind == Create ==> Uses(Create, sent)) && (t.ops[i].kind == Start ==> sent == StartVm)
    modifies db
    ensures db.sshKeys == old(db.sshKeys)
    ensures var o := Lose(t.ops[i], t.vms[t.ops[i].vm], sent, stamp);
            (raised <==> !Commits(t, i, o)) && db.Stores(Transact(t, i, o))
  {
    hide PhaseText, Lose;
    ghost var op, v := t.ops[i], t.vms[t.ops[i].vm];
    ghost var o := Lose(op, v, sent, stamp);
    SettleStamps(op, v, sent, NoTask, stamp);
    var operation := new Operation(db.operations[i]);
    var vm := new VirtualMachine(db.virtualMachines[operation.virtualMachineId]);
    raised := MarkUnknown(operation, sent, stamp, op, v);
    if !raised {
      raised := CommitOutcome(db, i, operation, vm, stamp, t, o);
    }
  }
}
