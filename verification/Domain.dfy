/** The vocabulary shared by every module: operation kinds, provider commands,
    the closed status lists, provider results and the answers to provider reads. */
module Domain {

  datatype Option<+T> = None | Some(value: T)

  /** A UUID is its 128-bit integer; the text form matters only for task ids and VM names. */
  const UUID_LIMIT: nat := 0x1_0000_0000_0000_0000_0000_0000_0000_0000
  type Uuid = n: nat | n < UUID_LIMIT

  type UserId = nat
  type TaskId = string

  /** Microseconds on one monotone clock. */
  type Time = nat
  const DISPATCH_GRACE: Time := 300_000_000
  const RECONCILE_DELAY: Time := 10_000_000

  /** `operations.operation_type`: "vm.create", "vm.start", ... */
  datatype Kind = Create | Start | Shutdown | Stop | Reboot | Delete

  /** `operations.status` (closed by a CHECK constraint). */
  datatype OpStatus = Pending | Processing | Succeeded | Failed

  /** `virtual_machines.status` (closed by a CHECK constraint). */
  datatype VmStatus =
    | VmPending | VmPendingCapacity | VmProvisioning | VmRunning
    | VmStopped | VmFailed | VmDeleting | VmDeleted

  /** The seven mutating adapter calls. */
  datatype Command =
    | CloneVm | ConfigureVm | ResizeDisk | StartVm | ShutdownVm | StopVm | DeleteVm

  /** A saved provider target: node and VMID. */
  datatype Placement = Placement(node: string, vmid: int)

  datatype ProviderTask = ProviderTask(id: TaskId, at: Placement)

  datatype SubmitState = Submitted | InProgress | AlreadyDone

  /** What a mutating adapter call returned: `None`, a task, or a clone / delete result. */
  datatype CallResult =
    | NoTask
    | TaskResult(task: ProviderTask)
    | CloneResult(state: SubmitState, cloneTask: Option<ProviderTask>)
    | DeleteResult(deleteState: SubmitState, deleteTask: Option<ProviderTask>)

  datatype Power = Running | Stopped | Missing

  /** `get_vm_power_state`: a state, or an exception. */
  datatype PowerAnswer = PowerUnavailable | PowerIs(power: Power, locked: bool)

  /** `get_task_status`: a status, or an exception. */
  datatype TaskAnswer =
    | TaskUnavailable
    | TaskRunning
    | TaskSucceeded
    | TaskFailed(code: Option<string>)

  /** `choose_clone_target`: a placement, or an exception. */
  datatype TargetAnswer = TargetUnavailable | Target(at: Placement)

  /** The part of a VM row that a create request fixes. */
  datatype VmSpec = VmSpec(vcpus: int, memoryMb: int, storageGb: int, image: string, sshKey: nat)

  /** The commands an operation of a kind sends, in order. */
  function Script(kind: Kind): seq<Command> {
    match kind
    case Create => [CloneVm, ConfigureVm, ResizeDisk, StartVm]
    case Start => [StartVm]
    case Shutdown => [ShutdownVm]
    case Stop => [StopVm]
    case Reboot => [ShutdownVm, StartVm]
    case Delete => [DeleteVm]
  }

  /** Position of a command in the script; |Script(kind)| when it is not there. */
  function Index(kind: Kind, c: Command): nat {
    match kind
    case Create =>
      (match c case CloneVm => 0 case ConfigureVm => 1 case ResizeDisk => 2 case StartVm => 3 case _ => 4)
    case Start => if c == StartVm then 0 else 1
    case Shutdown => if c == ShutdownVm then 0 else 1
    case Stop => if c == StopVm then 0 else 1
    case Reboot => (match c case ShutdownVm => 0 case StartVm => 1 case _ => 2)
    case Delete => if c == DeleteVm then 0 else 1
  }

  predicate Uses(kind: Kind, c: Command) {
    Index(kind, c) < |Script(kind)|
  }

  lemma ScriptIndex(kind: Kind, c: Command)
    ensures Uses(kind, c) <==> c in Script(kind)
    ensures Uses(kind, c) ==> Script(kind)[Index(kind, c)] == c
  {
    if c in Script(kind) {
      var i :| 0 <= i < |Script(kind)| && Script(kind)[i] == c;
    }
  }
}
