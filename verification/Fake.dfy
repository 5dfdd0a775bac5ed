/** The in-memory provider: every call takes effect at once and its task has already succeeded. */
module Fake {
  import opened Domain
  import opened Rows
  import opened TaskIds

  /** The provider's memory; the statuses of its tasks are what polls return. */
  datatype Memory = Memory(
    created: map<int, CreateVmRequest>, tasks: map<TaskId, TaskAnswer>, deleted: set<int>, powers: map<int, Power>)

  const NOTHING := Memory(map[], map[], {}, map[])

  function HomeOf(node: string, id: Uuid): Placement {
    Placement(node, VmidOf(id))
  }

  /** The task a call for this VM returns. */
  function TaskFor(c: Command, node: string, id: Uuid): ProviderTask {
    ProviderTask(TaskText(c, id), HomeOf(node, id))
  }

  // ---- what a call means ----

  /** The VM's power state as reads see it. */
  function Reads(m: Memory, vmid: int): Power {
    if vmid in m.deleted || (vmid !in m.created && vmid !in m.powers) then Missing
    else if vmid in m.powers then m.powers[vmid] else Stopped
  }

  /** Two memories differ at most in what they hold for one VMID, and in one task that has succeeded. */
  ghost predicate OnlyAt(m: Memory, m': Memory, vmid: int, id: TaskId) {
    && (forall v :: v != vmid ==>
          && (v in m'.created <==> v in m.created) && (v in m.created ==> m'.created[v] == m.created[v])
          && (v in m'.powers <==> v in m.powers) && (v in m.powers ==> m'.powers[v] == m.powers[v])
          && (v in m'.deleted <==> v in m.deleted))
    && (m'.tasks == m.tasks || m'.tasks == m.tasks[id := TaskSucceeded])
  }

  /** What one mutating call does and returns; None is an exception. */
  ghost predicate Performs(node: string, m: Memory, m': Memory, c: Command, id: Uuid, at: Placement,
                           result: Option<CallResult>) {
    var vmid, task := VmidOf(id), TaskFor(c, node, id);
    if at != HomeOf(node, id) then m' == m && result == None
    else if c == ConfigureVm then m' == m && result == Some(NoTask)
    else if c == DeleteVm && vmid in m.deleted then m' == m && result == Some(DeleteResult(AlreadyDone, None))
    else
      && OnlyAt(m, m', vmid, task.id) && m'.tasks == m.tasks[task.id := TaskSucceeded]
      && (vmid in m'.created <==> c == CloneVm || (c != DeleteVm && vmid in m.created))
      && (match c
          case DeleteVm => vmid in m'.deleted && result == Some(DeleteResult(Submitted, Some(task)))
          case CloneVm => result == Some(CloneResult(Submitted, Some(task)))
          case _ => result == Some(TaskResult(task)))
      && (c != DeleteVm ==> m'.deleted == m.deleted)
      && (if c == ResizeDisk then m'.powers == m.powers
          else if c == DeleteVm then vmid !in m'.powers
          else vmid in m'.powers && m'.powers[vmid] == if c == StartVm then Power.Running else Stopped)
  }

  class FakeProxmoxAdapter {
    const node: string
    var createdVms: map<int, CreateVmRequest>
    var taskStatuses: map<TaskId, TaskAnswer>
    var deletedVmids: set<int>
    var powerStates: map<int, Power>

    constructor (node: string)
      ensures this.node == node && State() == NOTHING
    {
      this.node := node;
      createdVms, taskStatuses, deletedVmids, powerStates := map[], map[], {}, map[];
    }

    ghost function State(): Memory
      reads this
    {
      Memory(createdVms, taskStatuses, deletedVmids, powerStates)
    }

    method ChooseCloneTarget(id: Uuid) returns (at: Placement)
      ensures at == HomeOf(node, id) && 100_000 <= at.vmid <= 899_999_999
    {
      at := Placement(node, VmidOf(id));
    }

    method CloneVm(request: CreateVmRequest, at: Placement) returns (result: Option<CallResult>)
      modifies this
      ensures Performs(node, old(State()), State(), Command.CloneVm, request.vmId, at, result)
      ensures result.Some? ==> createdVms[at.vmid] == request
    {
      if at.node != node || at.vmid != VmidOf(request.vmId) { return None; }
      var task := ProviderTask("fake:clone:" + UuidText(request.vmId), at);
      assert task == TaskFor(Command.CloneVm, node, request.vmId);
      createdVms := createdVms[at.vmid := request];
      powerStates := powerStates[at.vmid := Stopped];
      taskStatuses := taskStatuses[task.id := TaskSucceeded];
      result := Some(CloneResult(Submitted, Some(task)));
    }

    method ConfigureVm(request: CreateVmRequest, at: Placement) returns (result: Option<CallResult>)
      ensures Performs(node, State(), State(), Command.ConfigureVm, request.vmId, at, result)
    {
      if at.node != node || at.vmid != VmidOf(request.vmId) { return None; }
      result := Some(NoTask);
    }

    method ResizeVmDisk(request: CreateVmRequest, at: Placement) returns (result: Option<CallResult>)
      modifies this`taskStatuses
      ensures Performs(node, old(State()), State(), ResizeDisk, request.vmId, at, result)
    {
      if at.node != node || at.vmid != VmidOf(request.vmId) { return None; }
      var task := ProviderTask("fake:resize:" + UuidText(request.vmId), at);
      assert task == TaskFor(ResizeDisk, node, request.vmId);
      taskStatuses := taskStatuses[task.id := TaskSucceeded];
      result := Some(TaskResult(task));
    }

    method StartVm(id: Uuid, at: Placement) returns (result: Option<CallResult>)
      modifies this`taskStatuses, this`powerStates
      ensures Performs(node, old(State()), State(), Command.StartVm, id, at, result)
    {
      if at.node != node || at.vmid != VmidOf(id) { return None; }
      var task := ProviderTask("fake:start:" + UuidText(id), at);
      assert task == TaskFor(Command.StartVm, node, id);
      taskStatuses := taskStatuses[task.id := TaskSucceeded];
      powerStates := powerStates[at.vmid := Power.Running];
      result := Some(TaskResult(task));
    }

    method ShutdownVm(id: Uuid, at: Placement) returns (result: Option<CallResult>)
      modifies this`taskStatuses, this`powerStates
      ensures Performs(node, old(State()), State(), Command.ShutdownVm, id, at, result)
    {
      if at.node != node || at.vmid != VmidOf(id) { return None; }
      var task := ProviderTask("fake:shutdown:" + UuidText(id), at);
      assert task == TaskFor(Command.ShutdownVm, node, id);
      taskStatuses := taskStatuses[task.id := TaskSucceeded];
      powerStates := powerStates[at.vmid := Stopped];
      result := Some(TaskResult(task));
    }

    method StopVm(id: Uuid, at: Placement) returns (result: Option<CallResult>)
      modifies this`taskStatuses, this`powerStates
      ensures Performs(node, old(State()), State(), Command.StopVm, id, at, result)
    {
      if at.node != node || at.vmid != VmidOf(id) { return None; }
      var task := ProviderTask("fake:stop:" + UuidText(id), at);
      assert task == TaskFor(Command.StopVm, node, id);
      taskStatuses := taskStatuses[task.id := TaskSucceeded];
      powerStates := powerStates[at.vmid := Stopped];
      result := Some(TaskResult(task));
    }

    method DeleteVm(id: Uuid, at: Placement) returns (result: Option<CallResult>)
      modifies this
      ensures Performs(node, old(State()), State(), Command.DeleteVm, id, at, result)
    {
      if at.node != node || at.vmid != VmidOf(id) { return None; }
      if at.vmid in deletedVmids { return Some(DeleteResult(AlreadyDone, None)); }
      var task := ProviderTask("fake:delete:" + UuidText(id), at);
      assert task == TaskFor(Command.DeleteVm, node, id);
      taskStatuses := taskStatuses[task.id := TaskSucceeded];
      deletedVmids := deletedVmids + {at.vmid};
      createdVms := createdVms - {at.vmid};
      powerStates := powerStates - {at.vmid};
      result := Some(DeleteResult(Submitted, Some(task)));
    }

    method GetVmPowerState(id: Uuid, at: Placement) returns (answer: PowerAnswer)
      ensures answer == if at == HomeOf(node, id) then PowerIs(Reads(State(), at.vmid), false) else PowerUnavailable
    {
      if at.node != node || at.vmid != VmidOf(id) { return PowerUnavailable; }
      if at.vmid in deletedVmids { return PowerIs(Missing, false); }
      if at.vmid !in createdVms && at.vmid !in powerStates { return PowerIs(Missing, false); }
      answer := PowerIs(if at.vmid in powerStates then powerStates[at.vmid] else Stopped, false);
    }

    /** A remembered status, or the parser's verdict on an id from before a restart. */
    method GetTaskStatus(task: ProviderTask) returns (answer: TaskAnswer)
      ensures answer == Polls(node, State(), task)
    {
      if task.id in taskStatuses { return taskStatuses[task.id]; }
      var parts := Split(task.id);
      if |parts| != 3 || parts[0] != "fake" || !KnownKind(parts[1]) { return TaskUnavailable; }
      var id := ParseUuid(parts[2]);
      if id == None || task.at.vmid != VmidOf(id.value) || task.at.node != node { return TaskUnavailable; }
      answer := TaskSucceeded;
    }
  }

  function Polls(node: string, m: Memory, task: ProviderTask): TaskAnswer {
    if task.id in m.tasks then m.tasks[task.id]
    else if Accepts(node, task) then TaskSucceeded else TaskUnavailable
  }

  predicate AllSucceeded(m: Memory) {
    forall id :: id in m.tasks ==> m.tasks[id] == TaskSucceeded
  }

  // ---- properties ----

  /** A call leaves reads of every other VMID alone, and its own VM then reads as the command intends, unless
      the VMID was deleted before: a deleted VMID reads as missing for good. */
  lemma CallShowsInReads(node: string, m: Memory, m': Memory, c: Command, id: Uuid, result: Option<CallResult>)
    requires Performs(node, m, m', c, id, HomeOf(node, id), result)
    ensures forall vmid :: vmid != VmidOf(id) ==> Reads(m', vmid) == Reads(m, vmid)
    ensures Reads(m', VmidOf(id)) ==
            if VmidOf(id) in m.deleted then Missing
            else match c
                 case CloneVm => Stopped
                 case StartVm => Power.Running
                 case ShutdownVm => Stopped
                 case StopVm => Stopped
                 case DeleteVm => Missing
                 case _ => Reads(m, VmidOf(id))
    ensures AllSucceeded(m) ==> AllSucceeded(m')
  {}

  /** Every task a call returned polls as succeeded, also at a provider restarted with no memory. */
  lemma MintedTaskPolls(node: string, m: Memory, c: Command, id: Uuid)
    requires AllSucceeded(m) && MintsTask(c)
    ensures Polls(node, m, TaskFor(c, node, id)) == TaskSucceeded
    ensures Polls(node, NOTHING, TaskFor(c, node, id)) == TaskSucceeded
  {
    MintedIsAccepted(c, id, node, HomeOf(node, id));
  }

  /** A second delete finds nothing to do. */
  lemma DeleteTwice(node: string, m: Memory, m1: Memory, m2: Memory, id: Uuid, r1: Option<CallResult>,
                    r2: Option<CallResult>)
    requires Performs(node, m, m1, DeleteVm, id, HomeOf(node, id), r1)
    requires Performs(node, m1, m2, DeleteVm, id, HomeOf(node, id), r2)
    ensures m2 == m1 && r2 == Some(DeleteResult(AlreadyDone, None))
  {}
}
